/** What `enableShutdown` guarantees over any trace of events, and what it
    leaves undone. */
module CloseProperties {
  import opened Js
  import opened Close

  /** Nothing ever clears the flag. */
  lemma {:induction false} FlagSticky(w: World, es: seq<Event>)
    requires AdmissibleRun(w, es) && w.server.shutdownRequested
    ensures Run(w, es).server.shutdownRequested
    decreases |es|
  {
    if es != [] {
      FlagSticky(Step(w, es[0]), es[1..]);
    }
  }

  predicate NoShutdown(es: seq<Event>)
  {
    forall i :: 0 <= i < |es| ==> !es[i].ShutdownCalled?
  }

  /** Until `shutdown` is called the listeners change nothing: no header is
      overridden, no socket destroyed, no close or callback is pending. */
  lemma {:induction false} QuietBeforeShutdown(w: World, es: seq<Event>)
    requires AdmissibleRun(w, es) && NoShutdown(es) && w.server == Init.server
    ensures Run(w, es).server == Init.server
    ensures Run(w, es).closeHeader == w.closeHeader
    ensures Run(w, es).destroyed == w.destroyed
    decreases |es|
  {
    if es != [] {
      assert !es[0].ShutdownCalled?;
      assert NoShutdown(es[1..]) by {
        forall i | 0 <= i < |es[1..]| ensures !es[1..][i].ShutdownCalled? {
          assert es[1..][i] == es[i + 1];
        }
      }
      QuietBeforeShutdown(Step(w, es[0]), es[1..]);
    }
  }

  /** The sockets of the requests that finish while the shutdown flag is set. */
  function LateFinishes(w: World, es: seq<Event>): set<SocketId>
    requires AdmissibleRun(w, es)
    decreases |es|
  {
    if es == [] then {}
    else
      (if es[0].Finish? && w.server.shutdownRequested then {w.sockets[es[0].id]} else {})
      + LateFinishes(Step(w, es[0]), es[1..])
  }

  /** Only the 'finish' listener destroys sockets, and only once the flag is
      set: over any trace, the sockets destroyed are exactly those of the
      requests that finished after `shutdown`. So a keep-alive socket that
      sits idle, with no request finishing on it after the shutdown, stays
      open. */
  lemma {:induction false} IdleSocketsSurvive(w: World, es: seq<Event>)
    requires AdmissibleRun(w, es)
    ensures Run(w, es).destroyed == w.destroyed + LateFinishes(w, es)
    decreases |es|
  {
    if es != [] {
      IdleSocketsSurvive(Step(w, es[0]), es[1..]);
    }
  }

  /** A socket whose only request finished before `shutdown` is not
      destroyed by a later shutdown. */
  lemma KeepAliveSocketSurvives(id: RequestId, socket: SocketId, cb: Option<CallbackId>)
    ensures AdmissibleRun(Init, [RequestArrives(id, socket, false), Finish(id), ShutdownCalled(cb)])
    ensures socket !in Run(Init, [RequestArrives(id, socket, false), Finish(id), ShutdownCalled(cb)]).destroyed
  {
    var es := [RequestArrives(id, socket, false), Finish(id), ShutdownCalled(cb)];
    var w1 := Step(Init, es[0]);
    var w2 := Step(w1, es[1]);
    var last := [ShutdownCalled(cb)];
    assert es[1..] == [Finish(id)] + last && es[1..][1..] == last && last[1..] == [];
    assert AdmissibleRun(w2, last) && Run(w2, last) == Step(w2, ShutdownCalled(cb));
    assert AdmissibleRun(w1, es[1..]) && Run(w1, es[1..]) == Run(w2, last);
    assert w2.destroyed == {};
  }

  /** A request that finishes after `shutdown`, even one that arrived before
      it (and so kept its keep-alive header), has its socket destroyed. */
  lemma InFlightRequestDestroyed(w: World, es: seq<Event>, i: nat, id: RequestId)
    requires i < |es| && es[i].ShutdownCalled?
    requires AdmissibleRun(w, es) && id in Run(w, es).sockets
    ensures Run(w, es).sockets[id] in Step(Run(w, es), Finish(id)).destroyed
  {
    assert es[..i] + es[i..] == es;
    RunSplit(w, es[..i], es[i..]);
    var mid := Run(w, es[..i]);
    assert es[i..][1..] == es[i + 1..];
    FlagSticky(Step(mid, es[i]), es[i + 1..]);
  }

  lemma {:induction false} RunSplit(w: World, xs: seq<Event>, ys: seq<Event>)
    requires AdmissibleRun(w, xs + ys)
    ensures AdmissibleRun(w, xs) && AdmissibleRun(Run(w, xs), ys)
    ensures Run(w, xs + ys) == Run(Run(w, xs), ys)
    decreases |xs|
  {
    if xs != [] {
      assert (xs + ys)[1..] == xs[1..] + ys;
      RunSplit(Step(w, xs[0]), xs[1..], ys);
    } else {
      assert xs + ys == ys;
    }
  }

  // ---- the shutdown callbacks ----

  /** The callbacks given to `shutdown`, in call order. */
  function Callbacks(es: seq<Event>): seq<Option<CallbackId>>
    decreases |es|
  {
    if es == [] then []
    else
      var last := es[|es| - 1];
      Callbacks(es[..|es| - 1]) + (if last.ShutdownCalled? then [last.callback] else [])
  }

  /** The errors `server.close` completed with, in completion order. */
  function CloseErrors(es: seq<Event>): seq<Value>
    decreases |es|
  {
    if es == [] then []
    else
      var last := es[|es| - 1];
      CloseErrors(es[..|es| - 1]) + (if last.CloseCompletes? then [last.err] else [])
  }

  /** `callback(err)` for each completed close whose shutdown had a callback. */
  function Paired(callbacks: seq<Option<CallbackId>>, errs: seq<Value>): seq<Call>
    requires |errs| <= |callbacks|
    decreases |errs|
  {
    if errs == [] then []
    else
      var n := |errs| - 1;
      Paired(callbacks, errs[..n]) + (if callbacks[n].Some? then [Call(callbacks[n].value, errs[n])] else [])
  }

  lemma {:induction false} PairedExtend(callbacks: seq<Option<CallbackId>>, more: seq<Option<CallbackId>>, errs: seq<Value>)
    requires |errs| <= |callbacks|
    ensures Paired(callbacks + more, errs) == Paired(callbacks, errs)
    decreases |errs|
  {
    if errs != [] {
      var n := |errs| - 1;
      PairedExtend(callbacks, more, errs[..n]);
      assert (callbacks + more)[n] == callbacks[n];
    }
  }

  /** One event keeps the pending closes and the callbacks in step with the
      shutdown and close-completion events seen so far. */
  lemma CallbacksStep(w: World, e: Event, cbs: seq<Option<CallbackId>>, errs: seq<Value>)
    requires Admissible(w, e)
    requires |errs| <= |cbs| && w.server.closing == cbs[|errs|..]
    requires w.server.called + w.server.ticks == Paired(cbs, errs)
    ensures var cbs', errs' := cbs + (if e.ShutdownCalled? then [e.callback] else []),
                              errs + (if e.CloseCompletes? then [e.err] else []);
      && |errs'| <= |cbs'|
      && Step(w, e).server.closing == cbs'[|errs'|..]
      && Step(w, e).server.called + Step(w, e).server.ticks == Paired(cbs', errs')
  {
    var s, s' := w.server, Step(w, e).server;
    match e
    case ShutdownCalled(cb) =>
      assert errs + [] == errs;
      PairedExtend(cbs, [cb], errs);
      assert s'.closing == s.closing + [cb] == (cbs + [cb])[|errs|..];
      assert s'.called + s'.ticks == s.called + s.ticks;
    case CloseCompletes(err) =>
      assert cbs + [] == cbs;
      assert (errs + [err])[..|errs|] == errs;
      assert s'.closing == s.closing[1..] == cbs[|errs| + 1..];
    case TickRuns =>
      assert cbs + [] == cbs && errs + [] == errs;
      assert s.ticks == [s.ticks[0]] + s.ticks[1..];
      assert s'.called + s'.ticks == s.called + [s.ticks[0]] + s.ticks[1..] == s.called + s.ticks;
    case RequestArrives(_, _, _) =>
      assert cbs + [] == cbs && errs + [] == errs;
    case Finish(_) =>
      assert cbs + [] == cbs && errs + [] == errs;
  }

  /** Over any trace from a fresh server, close calls complete in the order
      `shutdown` made them; each callback is scheduled only once its close
      has completed, and is called, on a later tick, with that close's
      error and in that order; a shutdown without a callback schedules
      nothing. */
  lemma {:induction false} CallbacksFollowCloses(es: seq<Event>)
    requires AdmissibleRun(Init, es)
    ensures |CloseErrors(es)| <= |Callbacks(es)|
    ensures Run(Init, es).server.closing == Callbacks(es)[|CloseErrors(es)|..]
    ensures Run(Init, es).server.called + Run(Init, es).server.ticks == Paired(Callbacks(es), CloseErrors(es))
    decreases |es|
  {
    if es != [] {
      var n := |es| - 1;
      var init, e := es[..n], es[n];
      assert init + [e] == es;
      RunSplit(Init, init, [e]);
      var w := Run(Init, init);
      assert Run(w, [e]) == Step(w, e);
      CallbacksFollowCloses(init);
      assert es[..n] == init;
      CallbacksStep(w, e, Callbacks(init), CloseErrors(init));
    }
  }

  /** Callbacks run only on a tick: no other event calls one. */
  lemma CalledOnlyOnTick(w: World, e: Event)
    requires Admissible(w, e) && !e.TickRuns?
    ensures Step(w, e).server.called == w.server.called
  {
  }
}
