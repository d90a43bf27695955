/** What the supervisor of server/graceful.js guarantees, and what it does
    not, proved over the state machine of GracefulSpec. */
module GracefulProperties {
  import opened Js
  import opened GracefulSpec

  // ---- the worker bookkeeping ----

  lemma {:induction false} ExitKeepsInv(c: Cluster, pid: Pid)
    requires Inv(c) && pid in c.running
    ensures Inv(OnExit(c, pid))
  {
    RemoveDistinct(c.workers, pid);
    RemoveDistinct(c.running, pid);
    var gone := c.(workers := Remove(c.workers, pid), running := Remove(c.running, pid),
                   currentWorkersCount := c.currentWorkersCount - 1,
                   listeningWorkersCount := c.listeningWorkersCount - 1);
    forall i | 0 <= i < |gone.running| ensures 0 < gone.running[i] < gone.nextPid {
      assert gone.running[i] in c.running;
    }
    assert Inv(gone);
  }

  /** A send or disconnect keeps the bookkeeping: a worker leaves
      `cluster.workers` but is still counted until its 'exit'. */
  lemma DisconnectKeepsInv(c: Cluster, pid: Pid, rep: Reply)
    requires Inv(c)
    ensures Inv(DisconnectWorker(c, pid, rep).0)
  {
    RemoveDistinct(c.workers, pid);
  }

  lemma CheckKeepsInv(c: Cluster, os: Os)
    requires Inv(c)
    ensures Inv(CheckRestartQueue(c, os).0)
  {
    if Admits(c) && Live(c, c.restartQueue[0]) {
      RemoveDistinct(c.workers, c.restartQueue[0].n);
    }
  }

  lemma SigintKeepsInv(c: Cluster, os: Os)
    requires Inv(c)
    ensures Inv(OnSigint(c, os).0)
  {
    DisconnectAllShrinks(c.workers, c.(killSignalReceived := true), os);
  }

  /** Every event keeps `currentWorkersCount` equal to the number of workers
      that have not exited, `cluster.workers` among them, and the pids
      distinct and fresh. */
  lemma StepKeepsInv(c: Cluster, e: Input)
    requires Inv(c) && Admissible(c, e)
    ensures Inv(Step(c, e).0)
  {
    match e
    case WorkerListening(_, os) =>
      CheckKeepsInv(c.(listeningWorkersCount := c.listeningWorkersCount + 1), os);
    case WorkerExit(p, _) =>
      ExitKeepsInv(c, p);
    case WorkerSends(_, msg, os) =>
      if QueuesRestart(c, msg) {
        CheckKeepsInv(c.(restartQueue := c.restartQueue + [msg.pid]), os);
      }
    case SignalReceived(signal, os) =>
      SignalKeepsInv(c, signal, os);
  }

  lemma SignalKeepsInv(c: Cluster, signal: string, os: Os)
    requires Inv(c)
    ensures Inv(OnSignal(c, signal, os).0)
  {
    if c.options.shouldRestart && signal == "SIGINT" {
      SigintKeepsInv(c, os);
    } else if c.options.shouldRestart && signal == c.restartSignal {
      CheckKeepsInv(c.(restartQueue := c.restartQueue + AsValues(c.workers)), os);
    }
  }

  lemma {:induction false} RunKeepsInv(c: Cluster, es: seq<Input>)
    requires Inv(c) && AdmissibleRun(c, es)
    ensures Inv(Run(c, es))
    decreases |es|
  {
    if es != [] {
      StepKeepsInv(c, es[0]);
      var (c1, k) := Step(c, es[0]);
      if !k.Threw? {
        RunKeepsInv(c1, es[1..]);
      }
    }
  }

  // ---- after a kill signal ----

  /** `after` is `before` followed by effects that fork nothing. */
  predicate ExtendsWithoutFork(before: seq<Effect>, after: seq<Effect>)
  {
    |before| <= |after| && after[..|before|] == before
    && forall i :: |before| <= i < |after| ==> !after[i].Forked?
  }

  lemma CheckExtendsLog(c: Cluster, os: Os)
    ensures ExtendsWithoutFork(c.log, CheckRestartQueue(c, os).0.log)
  {
  }

  /** Once the kill flag is set no event clears it, and no event forks. */
  lemma StepAfterKill(c: Cluster, e: Input)
    requires c.killSignalReceived
    ensures Step(c, e).0.killSignalReceived
    ensures ExtendsWithoutFork(c.log, Step(c, e).0.log)
  {
    match e
    case WorkerListening(_, os) =>
      CheckExtendsLog(c.(listeningWorkersCount := c.listeningWorkersCount + 1), os);
    case WorkerExit(p, _) =>
    case WorkerSends(_, msg, os) =>
      CheckExtendsLog(c.(restartQueue := c.restartQueue + [msg.pid]), os);
    case SignalReceived(signal, os) =>
      CheckExtendsLog(c.(restartQueue := c.restartQueue + AsValues(c.workers)), os);
  }

  /** After SIGINT (or the nodemon SIGUSR2) every later exit is final: no run
      of events forks a replacement, and the flag stays set. */
  lemma {:induction false} NoForkAfterKill(c: Cluster, es: seq<Input>)
    requires c.killSignalReceived
    ensures Run(c, es).killSignalReceived
    ensures ExtendsWithoutFork(c.log, Run(c, es).log)
    decreases |es|
  {
    if es != [] {
      StepAfterKill(c, es[0]);
      var (c1, k) := Step(c, es[0]);
      if !k.Threw? {
        NoForkAfterKill(c1, es[1..]);
        var r := Run(c1, es[1..]);
        assert r.log[..|c1.log|] == c1.log;
        assert r.log[..|c.log|] == c1.log[..|c.log|];
      }
    }
  }

  /** Without the kill flag every exit forks exactly one replacement, so the
      number of workers that have not exited is restored. */
  lemma ExitForksReplacement(c: Cluster, pid: Pid)
    requires Inv(c) && pid in c.running && !c.killSignalReceived
    ensures OnExit(c, pid).log == c.log + [Forked(c.nextPid)]
    ensures |OnExit(c, pid).running| == |c.running|
    ensures c.nextPid in OnExit(c, pid).workers && c.nextPid !in c.running
  {
    RemoveDistinct(c.running, pid);
  }

  function ExitsOf(ws: seq<Pid>): (es: seq<Input>)
    ensures |es| == |ws|
  {
    if ws == [] then [] else [WorkerExit(ws[0], 0)] + ExitsOf(ws[1..])
  }

  lemma RemoveHead(ws: seq<Pid>)
    requires |ws| > 0 && Distinct(ws)
    ensures Remove(ws, ws[0]) == ws[1..]
  {
    assert ws[0] !in ws[1..] by {
      forall j | 0 <= j < |ws[1..]| ensures ws[1..][j] != ws[0] {
        assert ws[1..][j] == ws[j + 1];
      }
    }
  }

  /** A member of any non-empty sequence. */
  lemma SomeMember(ws: seq<Pid>) returns (p: Pid)
    ensures |ws| > 0 ==> p in ws
  {
    p := if |ws| > 0 then ws[0] else 0;
  }

  /** `cluster.workers` holds only workers that have not exited. */
  lemma NoneRunningNoWorkers(c: Cluster)
    requires Inv(c) && c.running == []
    ensures c.workers == []
  {
    var p := SomeMember(c.workers);
  }

  /** After a kill, once every worker that has not exited yet exits the
      master ends: with `process.exit(0)`, or by signalling itself SIGUSR2
      under nodemon; by then `cluster.workers` is empty too. */
  lemma {:induction false} LastExitEndsMaster(c: Cluster)
    requires Inv(c) && c.killSignalReceived && |c.running| > 0
    ensures Run(c, ExitsOf(c.running)).running == []
    ensures Run(c, ExitsOf(c.running)).workers == []
    ensures Run(c, ExitsOf(c.running)).log == c.log + [EndEffect(c)]
    decreases |c.running|
  {
    var ws := c.running;
    RemoveHead(ws);
    var c1 := OnExit(c, ws[0]);
    ExitKeepsInv(c, ws[0]);
    assert ExitsOf(ws)[1..] == ExitsOf(ws[1..]);
    assert Run(c, ExitsOf(ws)) == Run(c1, ExitsOf(ws[1..]));
    if |ws| > 1 {
      LastExitEndsMaster(c1);
    } else {
      NoneRunningNoWorkers(c1);
    }
  }

  /** Disconnecting every worker of `cluster.workers` empties it. */
  lemma {:induction false} DisconnectOwnWorkers(ws: seq<Pid>, c: Cluster, os: Os)
    requires c.workers == ws && Distinct(ws)
    requires forall i :: 0 <= i < |ws| ==> os(ws[i]) == Reply(Ok, Ok)
    ensures DisconnectAll(ws, c, os).0.workers == []
    decreases |ws|
  {
    if ws != [] {
      var c1 := DisconnectAllUnfold(ws, c, os);
      RemoveHead(ws);
      DisconnectOwnWorkers(ws[1..], c1, os);
    }
  }

  /** SIGINT sets the kill flag, then sends `{cmd: 'disconnect'}` and calls
      `disconnect()` on every worker of `cluster.workers` in turn, which
      leaves it empty; the queue is untouched, and every worker is still
      counted until it exits. */
  lemma SigintDisconnectsEveryWorker(c: Cluster, os: Os)
    requires Inv(c) && c.options.shouldRestart
    requires forall i :: 0 <= i < |c.workers| ==> os(c.workers[i]) == Reply(Ok, Ok)
    ensures var (r, k) := Step(c, SignalReceived("SIGINT", os));
      && k == Done && r.killSignalReceived
      && r.log == c.log + DisconnectEffects(c.workers)
      && r.restartQueue == c.restartQueue && r.workers == [] && r.running == c.running
  {
    var c' := c.(killSignalReceived := true);
    DisconnectAllSucceeds(c.workers, c', os);
    var r := DisconnectAll(c.workers, c', os).0;
    assert Step(c, SignalReceived("SIGINT", os)).0 == r;
    DisconnectOwnWorkers(c.workers, c', os);
  }

  // ---- the restart queue ----

  /** Whether the handler for `e` calls `checkRestartQueue`. */
  predicate Checks(c: Cluster, e: Input)
  {
    match e
    case WorkerListening(_, _) => true
    case WorkerExit(_, _) => false
    case WorkerSends(_, msg, _) => QueuesRestart(c, msg)
    case SignalReceived(signal, _) => c.options.shouldRestart && signal != "SIGINT" && signal == c.restartSignal
  }

  /** What the handler for `e` appends to the queue. */
  function Pushed(c: Cluster, e: Input): seq<Value>
  {
    match e
    case WorkerSends(_, msg, _) => if QueuesRestart(c, msg) then [msg.pid] else []
    case SignalReceived(_, _) => if Checks(c, e) then AsValues(c.workers) else []
    case _ => []
  }

  /** How many pids the handler for `e` takes off the front of the queue. */
  function Popped(c: Cluster, e: Input): nat
  {
    var q := c.restartQueue + Pushed(c, e);
    var listening := c.listeningWorkersCount + (if e.WorkerListening? then 1 else 0);
    if Checks(c, e) && |q| > 0 && listening == c.options.workersCount then 1 else 0
  }

  /** The queue part of StepQueue for a signal. */
  lemma SignalQueue(c: Cluster, signal: string, os: Os)
    ensures var e := SignalReceived(signal, os);
      && Popped(c, e) <= |c.restartQueue + Pushed(c, e)|
      && Step(c, e).0.restartQueue == (c.restartQueue + Pushed(c, e))[Popped(c, e)..]
  {
    var e := SignalReceived(signal, os);
    if Checks(c, e) {
      var q := c.restartQueue + AsValues(c.workers);
      assert Pushed(c, e) == AsValues(c.workers);
      assert Step(c, e).0.restartQueue == OnRestartSignal(c, os).0.restartQueue;
      assert Popped(c, e) == if Admits(c.(restartQueue := q)) then 1 else 0;
    } else {
      assert Pushed(c, e) == [];
      assert c.restartQueue + [] == c.restartQueue;
    }
  }

  /** Each event appends to the back of the queue and then takes at most one
      pid from the front, and only when as many workers listen as configured. */
  lemma StepQueue(c: Cluster, e: Input)
    ensures Popped(c, e) <= |c.restartQueue + Pushed(c, e)|
    ensures Step(c, e).0.restartQueue == (c.restartQueue + Pushed(c, e))[Popped(c, e)..]
  {
    match e
    case WorkerListening(_, _) =>
      assert Pushed(c, e) == [];
    case WorkerExit(_, _) =>
      assert Pushed(c, e) == [];
      assert c.restartQueue + [] == c.restartQueue;
    case WorkerSends(_, msg, _) =>
      assert c.restartQueue + [] == c.restartQueue;
    case SignalReceived(signal, os) =>
      SignalQueue(c, signal, os);
  }

  function PushedAll(c: Cluster, es: seq<Input>): seq<Value>
    decreases |es|
  {
    if es == [] then []
    else
      var (c1, k) := Step(c, es[0]);
      Pushed(c, es[0]) + (if k.Threw? then [] else PushedAll(c1, es[1..]))
  }

  function PoppedAll(c: Cluster, es: seq<Input>): nat
    decreases |es|
  {
    if es == [] then 0
    else
      var (c1, k) := Step(c, es[0]);
      Popped(c, es[0]) + (if k.Threw? then 0 else PoppedAll(c1, es[1..]))
  }

  lemma DropThenAppend<T>(x: seq<T>, k: nat, y: seq<T>, m: nat, z: seq<T>)
    requires k <= |x + y| && m <= |(x + y)[k..] + z|
    ensures ((x + y)[k..] + z)[m..] == (x + (y + z))[k + m..]
  {
    assert (x + y)[k..] + z == (x + (y + z))[k..];
  }

  /** The queue is first in, first out: at every point of a run it is the
      stream of everything pushed so far, minus as many pids from its front
      as were released. */
  lemma {:induction false} RunQueue(c: Cluster, es: seq<Input>)
    ensures PoppedAll(c, es) <= |c.restartQueue + PushedAll(c, es)|
    ensures Run(c, es).restartQueue == (c.restartQueue + PushedAll(c, es))[PoppedAll(c, es)..]
    decreases |es|
  {
    if es == [] {
      assert c.restartQueue + [] == c.restartQueue;
    } else {
      StepQueue(c, es[0]);
      var (c1, k) := Step(c, es[0]);
      var x, y, n := c.restartQueue, Pushed(c, es[0]), Popped(c, es[0]);
      if k.Threw? {
        assert y + [] == y;
      } else {
        RunQueue(c1, es[1..]);
        assert c1.restartQueue == (x + y)[n..];
        DropThenAppend(x, n, y, PoppedAll(c1, es[1..]), PushedAll(c1, es[1..]));
      }
    }
  }

  predicate DistinctValues(q: seq<Value>)
  {
    forall i, j :: 0 <= i < j < |q| ==> q[i] != q[j]
  }

  /** A worker's restart message never puts a pid in the queue twice. */
  lemma MessageKeepsQueueDistinct(c: Cluster, from: Pid, msg: Message, os: Os)
    requires DistinctValues(c.restartQueue)
    ensures DistinctValues(Step(c, WorkerSends(from, msg, os)).0.restartQueue)
  {
    var e := WorkerSends(from, msg, os);
    StepQueue(c, e);
    var q := c.restartQueue + Pushed(c, e);
    assert DistinctValues(q);
  }

  /** The restart signal does not look for duplicates: a worker of
      `cluster.workers` that is already queued while the gate is closed
      ends up queued twice. */
  lemma RestartSignalDuplicates(c: Cluster, os: Os, p: Pid)
    requires c.options.shouldRestart && c.restartSignal != "SIGINT"
    requires p in c.workers && Number(p) in c.restartQueue
    requires c.listeningWorkersCount != c.options.workersCount
    ensures multiset(Step(c, SignalReceived(c.restartSignal, os)).0.restartQueue)[Number(p)] >= 2
  {
    var e := SignalReceived(c.restartSignal, os);
    var i :| 0 <= i < |c.workers| && c.workers[i] == p;
    var vs := AsValues(c.workers);
    assert vs[i] == Number(p);
    var q := Step(c, e).0.restartQueue;
    assert q == c.restartQueue + vs;
    assert multiset(c.restartQueue)[Number(p)] >= 1;
    assert multiset(vs)[Number(p)] >= 1;
  }

  // ---- what the gate does not prevent ----

  /** One restart signal while every configured worker listens: the
      pids of `cluster.workers` join the queue, and its head is released
      when it is in `cluster.workers` (and, if its send and disconnect go
      through, leaves it), or ends the master when it is not. */
  lemma RestartSignalReleases(c: Cluster, os: Os)
    requires c.options.shouldRestart && c.restartSignal != "SIGINT"
    requires c.listeningWorkersCount == c.options.workersCount
    requires |c.restartQueue + AsValues(c.workers)| > 0
    ensures var q := c.restartQueue + AsValues(c.workers);
      var (r, k) := Step(c, SignalReceived(c.restartSignal, os));
      && r.restartQueue == q[1..] && r.running == c.running && r.options == c.options
      && r.restartSignal == c.restartSignal && r.listeningWorkersCount == c.listeningWorkersCount
      && (Live(c, q[0]) && os(q[0].n) == Reply(Ok, Ok) ==>
            k == Done && r.workers == Remove(c.workers, q[0].n)
            && r.log == c.log + [SentDisconnect(q[0].n), Disconnected(q[0].n)])
      && (!Live(c, q[0]) ==> k == Threw(NoSuchWorker(q[0])))
  {
  }

  lemma AppendPairs<T>(a: seq<T>, b: seq<T>, d: seq<T>)
    requires |b| == 2 && |d| == 2
    ensures (a + b) + d == a + [b[0], b[1], d[0], d[1]]
  {
    assert b + d == [b[0], b[1], d[0], d[1]];
  }

  /** A restart signal whose queue starts with the first worker of
      `cluster.workers` releases it, and that worker leaves `cluster.workers`. */
  lemma ReleaseFirstWorker(c: Cluster, os: Os) returns (r: Cluster)
    requires Distinct(c.workers) && |c.workers| > 0 && os(c.workers[0]) == Reply(Ok, Ok)
    requires c.options.shouldRestart && c.restartSignal != "SIGINT"
    requires c.listeningWorkersCount == c.options.workersCount
    requires (c.restartQueue + AsValues(c.workers))[0] == Number(c.workers[0])
    ensures Step(c, SignalReceived(c.restartSignal, os)) == (r, Done)
    ensures r.workers == c.workers[1..] && r.running == c.running
    ensures r.restartQueue == (c.restartQueue + AsValues(c.workers))[1..]
    ensures r.log == c.log + [SentDisconnect(c.workers[0]), Disconnected(c.workers[0])]
    ensures r.options == c.options && r.restartSignal == c.restartSignal
    ensures r.listeningWorkersCount == c.listeningWorkersCount
  {
    RestartSignalReleases(c, os);
    RemoveHead(c.workers);
    r := Step(c, SignalReceived(c.restartSignal, os)).0;
  }

  /** After the first release the second worker heads both the queue and
      `cluster.workers`. */
  lemma NextReleaseReady(c: Cluster, c1: Cluster)
    requires Distinct(c.workers) && |c.workers| >= 2 && c.restartQueue == []
    requires c1.workers == c.workers[1..]
    requires c1.restartQueue == (c.restartQueue + AsValues(c.workers))[1..]
    ensures Distinct(c1.workers) && |c1.workers| > 0 && c1.workers[0] == c.workers[1]
    ensures (c1.restartQueue + AsValues(c1.workers))[0] == Number(c1.workers[0])
    ensures c1.workers[1..] == c.workers[2..]
  {
    var vs := AsValues(c.workers);
    assert c.restartQueue + vs == vs;
    assert |c1.restartQueue| > 0 && c1.restartQueue[0] == vs[1];
    RemoveHead(c.workers);
    RemoveDistinct(c.workers, c.workers[0]);
    assert c1.workers[1..] == c.workers[2..] by {
      forall k | 0 <= k < |c.workers| - 2 ensures c1.workers[1..][k] == c.workers[2..][k] {
        assert c1.workers[1..][k] == c.workers[k + 2];
      }
    }
  }

  /** The gate only compares the listening count with `workersCount`, and a
      release does not lower that count: two restart signals in a row, with
      every worker listening, disconnect the first two workers before either
      has exited. */
  lemma SecondReleaseBeforeFirstExit(c: Cluster, os: Os)
    requires Inv(c) && c.options.shouldRestart && c.restartSignal != "SIGINT"
    requires c.restartQueue == [] && |c.workers| >= 2
    requires c.listeningWorkersCount == c.options.workersCount
    requires os(c.workers[0]) == Reply(Ok, Ok) && os(c.workers[1]) == Reply(Ok, Ok)
    ensures var e := SignalReceived(c.restartSignal, os);
      var c1 := Step(c, e).0;
      var c2 := Step(c1, e).0;
      && Step(c, e).1 == Done && Step(c1, e).1 == Done
      && c2.workers == c.workers[2..] && c2.running == c.running
      && c2.log == c.log + [SentDisconnect(c.workers[0]), Disconnected(c.workers[0]),
                            SentDisconnect(c.workers[1]), Disconnected(c.workers[1])]
  {
    var w0, w1 := c.workers[0], c.workers[1];
    assert (c.restartQueue + AsValues(c.workers))[0] == Number(w0);
    var c1 := ReleaseFirstWorker(c, os);
    NextReleaseReady(c, c1);
    var c2 := ReleaseFirstWorker(c1, os);
    AppendPairs(c.log, [SentDisconnect(w0), Disconnected(w0)], [SentDisconnect(w1), Disconnected(w1)]);
  }

  /** The restart signal queues the pids of `cluster.workers` even when they
      are queued already, and a released worker's pid can stay queued after
      it has left `cluster.workers`. With two workers, both listening, an
      empty queue and every send and disconnect going through, the third
      restart signal in a row pops a released pid, `worker` is `undefined`,
      and the TypeError ends the master. */
  lemma ThirdRestartSignalEndsMaster(c: Cluster, os: Os)
    requires Inv(c) && c.options.shouldRestart && c.restartSignal != "SIGINT"
    requires c.restartQueue == [] && |c.workers| == 2
    requires c.listeningWorkersCount == c.options.workersCount
    requires os(c.workers[0]) == Reply(Ok, Ok) && os(c.workers[1]) == Reply(Ok, Ok)
    ensures var e := SignalReceived(c.restartSignal, os);
      var (c1, k1) := Step(c, e);
      var (c2, k2) := Step(c1, e);
      var (c3, k3) := Step(c2, e);
      && k1 == Done && k2 == Done && c2.workers == [] && c2.restartQueue == [Number(c.workers[1])]
      && k3 == Threw(NoSuchWorker(Number(c.workers[1])))
  {
    var e := SignalReceived(c.restartSignal, os);
    var w1 := c.workers[1];
    SecondReleaseBeforeFirstExit(c, os);
    RestartSignalReleases(c, os);
    var c1 := Step(c, e).0;
    assert c1.restartQueue == [Number(w1)];
    RestartSignalReleases(c1, os);
    var c2 := Step(c1, e).0;
    assert c2.restartQueue == [Number(w1)] + AsValues(c1.workers)[1..];
    assert AsValues(c2.workers) == [];
    assert c2.restartQueue + AsValues(c2.workers) == [Number(w1)];
    RestartSignalReleases(c2, os);
  }

  /** A pid waits in the queue while one worker is still starting; the
      queued worker crashes and is replaced; once the starting worker and
      the replacement listen, the gate opens on the dead pid, `worker` is
      `undefined`, and the TypeError escapes `checkRestartQueue` and ends
      the master. */
  lemma QueuedCrashEndsMaster(c: Cluster, p: Pid, q: Pid, os: Os)
    requires Inv(c) && !c.killSignalReceived
    requires p in c.workers && q in c.workers && p != q
    requires c.restartQueue == [Number(p)]
    requires c.listeningWorkersCount == c.options.workersCount - 1
    ensures var c1 := Step(c, WorkerExit(p, 1)).0;
      var (c2, k2) := Step(c1, WorkerListening(q, os));
      var (c3, k3) := Step(c2, WorkerListening(c.nextPid, os));
      && k2 == Done && k3 == Threw(NoSuchWorker(Number(p)))
  {
    ExitKeepsInv(c, p);
    var c1 := OnExit(c, p);
    assert p !in c1.workers by {
      assert c1.workers == Remove(c.workers, p) + [c.nextPid];
    }
  }

  /** A master configured for one worker starts with that worker alone. */
  lemma StartOneWorker(options: Options, first: Pid)
    requires first > 0 && options.workersCount == 1
    ensures StartMaster(options, first)
         == Cluster(options, ResolveSignal(options.signal), options.nodemon, [first], [first], first + 1,
                    [], false, 1, 0, [Forked(first)])
  {
    var empty := Cluster(options, ResolveSignal(options.signal), options.nodemon, [], [], first, [], false, 0, 0, []);
    assert ForkMany(empty, 1) == GracefulSpec.Fork(ForkMany(empty, 0));
  }

  /** The only worker exits before it listens: it is replaced, and the
      listening count drops to -1. */
  lemma EarlyExitReplaced(c: Cluster, first: Pid) returns (c1: Cluster)
    requires first > 0 && c.workers == [first] && c.running == [first] && c.nextPid == first + 1
    requires !c.killSignalReceived && c.listeningWorkersCount == 0 && c.log == [Forked(first)]
    ensures Step(c, WorkerExit(first, 1)).0 == c1
    ensures c1 == c.(workers := [first + 1], running := [first + 1], nextPid := first + 2,
                     listeningWorkersCount := -1, log := [Forked(first), Forked(first + 1)])
  {
    c1 := OnExit(c, first);
  }

  /** The replacement listens, but the count only climbs back to 0. */
  lemma ReplacementListens(c: Cluster, p: Pid, os: Os)
    requires c.restartQueue == [] && c.listeningWorkersCount == -1
    ensures Step(c, WorkerListening(p, os)) == (c.(listeningWorkersCount := 0), Done)
  {
  }

  /** With the count one short, a restart signal queues the workers and
      releases none. */
  lemma RestartSignalOnlyQueues(c: Cluster, os: Os)
    requires c.options.shouldRestart && c.restartSignal != "SIGINT"
    requires c.listeningWorkersCount != c.options.workersCount
    ensures var (r, k) := Step(c, SignalReceived(c.restartSignal, os));
      && k == Done && r.workers == c.workers && r.listeningWorkersCount == c.listeningWorkersCount
      && r.restartQueue == c.restartQueue + AsValues(c.workers) && r.log == c.log
  {
  }

  /** An exit lowers the listening count even for a worker that never
      listened. With one worker configured, a worker that dies before it
      listens leaves the count one short for good: its replacement comes
      online, yet a restart signal only queues it and nothing is released. */
  lemma EarlyExitStallsRestarts(options: Options, first: Pid, os: Os)
    requires first > 0 && options.workersCount == 1 && options.shouldRestart
    ensures var c0 := StartMaster(options, first);
      var c1 := Step(c0, WorkerExit(first, 1)).0;
      var c2 := Step(c1, WorkerListening(first + 1, os)).0;
      var (c3, k3) := Step(c2, SignalReceived(c0.restartSignal, os));
      && k3 == Done && c2.workers == [first + 1] && c3.workers == [first + 1]
      && c3.listeningWorkersCount == 0
      && c3.restartQueue == [Number(first + 1)]
      && c3.log == [Forked(first), Forked(first + 1)]
  {
    var c0 := StartMaster(options, first);
    StartOneWorker(options, first);
    var c1 := EarlyExitReplaced(c0, first);
    var c2 := c1.(listeningWorkersCount := 0);
    ReplacementListens(c1, first + 1, os);
    RestartSignalOnlyQueues(c2, os);
  }
}
