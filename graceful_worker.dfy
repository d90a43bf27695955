/** The worker side of server/graceful.js (`startWorker` and
    `gracefullyRestartCurrentWorker`): how the options are narrowed, which
    listeners and timers a worker registers, and what they send. */
module GracefulWorker {
  import opened Js
  import opened GracefulSpec

  /** `restartOnMemory` and `restartOnTimeout` survive only with more than
      one worker (`workersCount > 1 && x`), so that a self restart never
      leaves the cluster without a worker. */
  function WorkerOptions(o: Options): (r: Options)
    ensures r == o.(restartOnMemory := r.restartOnMemory, restartOnTimeout := r.restartOnTimeout)
    ensures o.workersCount > 1 ==> r == o
  {
    if o.workersCount > 1 then o else o.(restartOnMemory := 0, restartOnTimeout := 0)
  }

  /** The restart request a worker sends to the master. */
  function RestartRequest(self: Pid): Message
  {
    Message("restart", Number(self))
  }

  /** One tick of the 5-second memory interval, registered only when
      `restartOnMemory` is set: a request when the resident set size is
      over the limit. */
  function MemoryTick(o: Options, rss: int, self: Pid): (m: Option<Message>)
    ensures m.Some? <==> o.restartOnMemory != 0 && rss > o.restartOnMemory
    ensures m.Some? ==> m.value == RestartRequest(self)
  {
    if o.restartOnMemory != 0 && rss > o.restartOnMemory then Some(RestartRequest(self)) else None
  }

  /** One tick of the `restartOnTimeout` interval, registered only when it is
      set: always a request. */
  function TimeoutTick(o: Options, self: Pid): (m: Option<Message>)
    ensures m.Some? <==> o.restartOnTimeout != 0
    ensures m.Some? ==> m.value == RestartRequest(self)
  {
    if o.restartOnTimeout != 0 then Some(RestartRequest(self)) else None
  }

  /** What reaches a worker process: SIGINT, or a message from the master. */
  datatype WorkerEvent = Sigint | FromMaster(msg: Message)

  /** A worker process as its listeners leave it: whether it has ended, and
      how many times the `onDisconnect` hook has run. */
  datatype WorkerProcess = WorkerProcess(ended: bool, hookCalls: nat)

  /** The listeners `startWorker` registers, reacting to one event. SIGINT
      meets an empty listener when the cluster restarts gracefully and
      Node's default action (the process ends) otherwise; a message only
      logs, and runs the `onDisconnect` hook when its `cmd` is
      'disconnect' and the hook is a function. Nothing reaches a process
      that has ended. */
  function OnWorkerEvent(o: Options, w: WorkerProcess, e: WorkerEvent): (r: WorkerProcess)
    ensures w.ended ==> r == w
    ensures r.ended <==> w.ended || (e.Sigint? && !o.shouldRestart)
    ensures r.hookCalls > w.hookCalls <==>
              !w.ended && e.FromMaster? && e.msg.cmd == "disconnect" && o.onDisconnect.Function?
    ensures r.hookCalls <= w.hookCalls + 1
  {
    if w.ended then w
    else match e
      case Sigint => if o.shouldRestart then w else w.(ended := true)
      case FromMaster(msg) =>
        if msg.cmd == "disconnect" && o.onDisconnect.Function? then w.(hookCalls := w.hookCalls + 1) else w
  }

  /** A worker process after `es`, in order. */
  function WorkerRun(o: Options, w: WorkerProcess, es: seq<WorkerEvent>): (r: WorkerProcess)
    ensures w.ended ==> r == w
    ensures r.hookCalls >= w.hookCalls
    decreases |es|
  {
    if es == [] then w else WorkerRun(o, OnWorkerEvent(o, w, es[0]), es[1..])
  }

  /** The number of `{cmd: 'disconnect'}` messages among `es`. */
  function DisconnectMessages(es: seq<WorkerEvent>): nat
    decreases |es|
  {
    if es == [] then 0
    else (if es[0].FromMaster? && es[0].msg.cmd == "disconnect" then 1 else 0) + DisconnectMessages(es[1..])
  }

  /** A running worker ends exactly when SIGINT reaches it without the
      graceful restart: with `shouldRestart` no SIGINT ends it, and no
      message from the master ever does. */
  lemma {:induction false} WorkerEndsOnlyBySigint(o: Options, w: WorkerProcess, es: seq<WorkerEvent>)
    requires !w.ended
    ensures WorkerRun(o, w, es).ended <==> !o.shouldRestart && Sigint in es
    decreases |es|
  {
    if es != [] {
      var w1 := OnWorkerEvent(o, w, es[0]);
      assert es == [es[0]] + es[1..];
      if w1.ended {
        assert es[0] == Sigint;
      } else {
        WorkerEndsOnlyBySigint(o, w1, es[1..]);
      }
    }
  }

  /** While the worker runs, the hook runs once per disconnect message when
      it is a function, and never otherwise. */
  lemma {:induction false} HookRunsPerDisconnect(o: Options, w: WorkerProcess, es: seq<WorkerEvent>)
    requires !w.ended && (o.shouldRestart || Sigint !in es)
    ensures WorkerRun(o, w, es).hookCalls ==
              w.hookCalls + (if o.onDisconnect.Function? then DisconnectMessages(es) else 0)
    decreases |es|
  {
    if es != [] {
      assert es == [es[0]] + es[1..];
      var w1 := OnWorkerEvent(o, w, es[0]);
      assert !w1.ended;
      HookRunsPerDisconnect(o, w1, es[1..]);
    }
  }

  /** Without an `onDisconnect` function, nothing runs the hook. */
  lemma {:induction false} HookNeverRuns(o: Options, w: WorkerProcess, es: seq<WorkerEvent>)
    requires !o.onDisconnect.Function?
    ensures WorkerRun(o, w, es).hookCalls == w.hookCalls
    decreases |es|
  {
    if es != [] {
      HookNeverRuns(o, OnWorkerEvent(o, w, es[0]), es[1..]);
    }
  }

  /** The worker's options keep `shouldRestart` and `onDisconnect`, so the
      worker listens to SIGINT and disconnects as the master's options say. */
  lemma WorkerListenersFollowOptions(o: Options, es: seq<WorkerEvent>)
    ensures WorkerRun(WorkerOptions(o), WorkerProcess(false, 0), es)
         == WorkerRun(o, WorkerProcess(false, 0), es)
  {
    SameListeners(WorkerOptions(o), o, WorkerProcess(false, 0), es);
  }

  lemma {:induction false} SameListeners(o1: Options, o2: Options, w: WorkerProcess, es: seq<WorkerEvent>)
    requires o1.shouldRestart == o2.shouldRestart && o1.onDisconnect == o2.onDisconnect
    ensures WorkerRun(o1, w, es) == WorkerRun(o2, w, es)
    decreases |es|
  {
    if es != [] {
      SameListeners(o1, o2, OnWorkerEvent(o1, w, es[0]), es[1..]);
    }
  }

  /** With a single worker, no tick ever asks for a restart, whatever the
      configured limits and the memory in use. */
  lemma SingleWorkerNeverSelfRestarts(o: Options, rss: int, self: Pid)
    requires o.workersCount <= 1
    ensures MemoryTick(WorkerOptions(o), rss, self) == None
    ensures TimeoutTick(WorkerOptions(o), self) == None
  {
  }

  /** A request from a worker that is not queued yet is queued by the
      master; the same request repeated while it waits (the memory interval
      fires every 5 seconds) changes nothing. */
  lemma RequestQueuedOnce(c: Cluster, self: Pid, os: Os)
    requires self > 0 && Number(self) !in c.restartQueue
    ensures QueuesRestart(c, RestartRequest(self))
    ensures var c1 := c.(restartQueue := c.restartQueue + [Number(self)]);
      Step(c1, WorkerSends(self, RestartRequest(self), os)) == (c1, Done)
  {
    var c1 := c.(restartQueue := c.restartQueue + [Number(self)]);
    assert c1.restartQueue[|c.restartQueue|] == Number(self);
  }
}
