/** Whole client programs, run on an arbitrary reachable world whose queue is
    idle. The waiting, late and chained programs follow the repository's unit
    tests. The map programs follow `map` itself: they map before the resolve,
    and they observe the derived future's outcome, not a callback on it. The
    double-resolve and lost-callback programs follow the unconditional
    assignment of the outcome in the two `resolve`s. Each `...Program` function makes the client's calls,
    which only dispatch work. A `...Calls` lemma states what those calls leave
    behind, further lemmas follow the queue from any closed world of that
    shape, and the main lemma of each section joins the two. */
module Scenarios {
  import opened Futures
  import opened Invariants
  import opened Promises
  import opened Programs
  import opened FutureProperties

  // ---------------------------------------------------------------------
  // map

  /** `promise.future.map(transform)`, then the promise is resolved with `o`.
      The handle names the derived future. */
  function MapProgram<V, E>(w: World<V, E>, transform: V -> V, o: Outcome<V, E>): Handle<V, E>
  {
    var c := NewPromise(w);
    var m := Map(c.world, c.promise.future, transform);
    Handle(ResolveFuture(m.world, c.promise.future, o), m.future)
  }

  /** The calls allocate the source and the derived future, both unsettled,
      and dispatch the setup task before the settlement. */
  lemma MapCalls<V, E>(w: World<V, E>, transform: V -> V, o: Outcome<V, E>)
    requires Valid(w) && |w.queue| == 0
    ensures var h := MapProgram(w, transform, o); var p := |w.heap|;
            && Closed(h.world) && h.world.log == w.log
            && h.future == p + 1 && |h.world.heap| == p + 2
            && h.world.queue == [MapSetup(p, h.future, transform), Resolve(p, o)]
            && h.world.heap[p] == Unsettled() && h.world.heap[h.future] == Unsettled()
  {
    var c := NewPromise(w);
    NewPromisePreservesValid(w);
    var m := Map(c.world, c.promise.future, transform);
    MapPreservesValid(c.world, c.promise.future, transform);
    ResolveFuturePreservesValid(m.world, c.promise.future, o);
  }

  /** The map task subscribes the two forwarders behind the settlement, which
      then runs with nobody to deliver to. */
  lemma MapSourceSettles<V, E>(s0: World<V, E>, p: FutureId, d: FutureId, transform: V -> V, o: Outcome<V, E>)
    requires Closed(s0) && p < |s0.heap| && d < |s0.heap| && p != d
    requires s0.queue == [MapSetup(p, d, transform), Resolve(p, o)]
    requires s0.heap[p] == Unsettled() && s0.heap[d] == Unsettled()
    ensures var s2 := Steps(s0, 2);
            && s2.heap[p] == Future(Some(o), [], []) && s2.heap[d] == Unsettled() && s2.log == s0.log
            && s2.queue == [RegisterValue(p, Forward(d, transform)), RegisterError(p, PassError(d))]
  {
    var s1 := Step(s0);
    MapSetupSubscribes(s0, p, d, transform);
    assert s1.queue == [Resolve(p, o), RegisterValue(p, Forward(d, transform)), RegisterError(p, PassError(d))];
    var s2 := Step(s1);
    ResolveDelivers(s1, p, o);
    ResolveForwards(s1, p, o);
    assert Forwards(s1.heap[p].valueObservers) == [] && PassErrorTargets(s1.heap[p].errorObservers) == [];
    assert Steps(s0, 1) == s1;
    assert Steps(s0, 2) == s2;
  }

  /** The forwarders meet a source settled with a value: the value forwarder
      dispatches the transformed value, the error one nothing, and the derived
      future then settles with it. */
  lemma MapForwardsValue<V, E>(s2: World<V, E>, p: FutureId, d: FutureId, transform: V -> V, v: V)
    requires Closed(s2) && p < |s2.heap| && d < |s2.heap| && p != d
    requires s2.heap[p] == Future(Some(Value(v)), [], []) && s2.heap[d] == Unsettled()
    requires s2.queue == [RegisterValue(p, Forward(d, transform)), RegisterError(p, PassError(d))]
    ensures var r := Step(Step(Step(s2)));
            && r.heap[d].result == Some(Value(transform(v)))
            && r.log == s2.log && |r.queue| == 0
  {
    var s3 := Step(s2);
    LateValueRegistration(s2, p, Forward(d, transform));
    assert s3.queue == [RegisterError(p, PassError(d)), Resolve(d, Value(transform(v)))];
    var s4 := Step(s3);
    LateErrorRegistration(s3, p, PassError(d));
    assert s4.queue == [Resolve(d, Value(transform(v)))] && s4.heap == s2.heap;
    ResolveDelivers(s4, d, Value(transform(v)));
    ResolveForwards(s4, d, Value(transform(v)));
    assert Forwards(s4.heap[d].valueObservers) == [];
  }

  /** The forwarders meet a source settled with an error: the value forwarder
      is dropped untouched, the error one dispatches the same error, and the
      derived future then settles with it. */
  lemma MapForwardsError<V, E>(s2: World<V, E>, p: FutureId, d: FutureId, transform: V -> V, e: E)
    requires Closed(s2) && p < |s2.heap| && d < |s2.heap| && p != d
    requires s2.heap[p] == Future(Some(Error(e)), [], []) && s2.heap[d] == Unsettled()
    requires s2.queue == [RegisterValue(p, Forward(d, transform)), RegisterError(p, PassError(d))]
    ensures var r := Step(Step(Step(s2)));
            && r.heap[d].result == Some(Error(e))
            && r.log == s2.log && |r.queue| == 0
  {
    var s3 := Step(s2);
    LateValueRegistration(s2, p, Forward(d, transform));
    assert s3.queue == [RegisterError(p, PassError(d))] && s3.heap == s2.heap;
    var s4 := Step(s3);
    LateErrorRegistration(s3, p, PassError(d));
    assert s4.queue == [Resolve(d, Error(e))] && s4.heap == s2.heap;
    ResolveDelivers(s4, d, Error(e));
    ResolveForwards(s4, d, Error(e));
    assert PassErrorTargets(s4.heap[d].errorObservers) == [];
  }

  /** After the five tasks the derived future holds `Value(transform(v))`, no
      client callback ran and the queue is idle. */
  lemma MapOfValue<V, E>(w: World<V, E>, transform: V -> V, v: V)
    requires Valid(w) && |w.queue| == 0
    ensures var h := MapProgram(w, transform, Value(v));
            var r := Steps(h.world, 5);
            && r.heap[h.future].result == Some(Value(transform(v)))
            && r.log == w.log && |r.queue| == 0
  {
    var h := MapProgram(w, transform, Value(v));
    MapCalls(w, transform, Value(v));
    MapSourceSettles(h.world, |w.heap|, h.future, transform, Value(v));
    MapForwardsValue(Steps(h.world, 2), |w.heap|, h.future, transform, v);
    assert Steps(h.world, 5) == Step(Step(Step(Steps(h.world, 2))));
  }

  /** The derived future settles with the very same error, and the transform
      is never applied. */
  lemma MapOfError<V, E>(w: World<V, E>, transform: V -> V, e: E)
    requires Valid(w) && |w.queue| == 0
    ensures var h := MapProgram(w, transform, Error(e));
            var r := Steps(h.world, 5);
            && r.heap[h.future].result == Some(Error(e))
            && r.log == w.log && |r.queue| == 0
  {
    var h := MapProgram(w, transform, Error(e));
    MapCalls(w, transform, Error(e));
    MapSourceSettles(h.world, |w.heap|, h.future, transform, Error(e));
    MapForwardsError(Steps(h.world, 2), |w.heap|, h.future, transform, e);
    assert Steps(h.world, 5) == Step(Step(Step(Steps(h.world, 2))));
  }

  // ---------------------------------------------------------------------
  // waiting for the outcome

  /** `onValue` and `onError` on a fresh promise's future, and only then is
      the promise resolved with `o`. */
  function WaitProgram<V, E>(w: World<V, E>, o: Outcome<V, E>): World<V, E>
  {
    var c := NewPromise(w);
    var f := c.promise.future;
    var a := OnValue(c.world, f);
    var b := OnError(a.world, f);
    ResolveFuture(b.world, f, o)
  }

  /** The calls deliver nothing; both registrations are queued ahead of the
      settlement. */
  lemma WaitCalls<V, E>(w: World<V, E>, o: Outcome<V, E>)
    requires Valid(w) && |w.queue| == 0
    ensures var s0 := WaitProgram(w, o); var n := w.nextObserver; var f := |w.heap|;
            && Closed(s0) && s0.log == w.log && f < |s0.heap| && s0.heap[f] == Unsettled()
            && s0.queue == [RegisterValue(f, ValueCallback(n)), RegisterError(f, ErrorCallback(n + 1)), Resolve(f, o)]
  {
    var c := NewPromise(w);
    NewPromisePreservesValid(w);
    var f := c.promise.future;
    var a := OnValue(c.world, f);
    OnValuePreservesValid(c.world, f);
    var b := OnError(a.world, f);
    OnErrorPreservesValid(a.world, f);
    ResolveFuturePreservesValid(b.world, f, o);
  }

  /** Both callbacks wait in the pending lists without running; the
      settlement then runs the one of the matching channel only. */
  lemma WaitRun<V, E>(s0: World<V, E>, f: FutureId, n: ObserverId, o: Outcome<V, E>)
    requires Closed(s0) && f < |s0.heap| && s0.heap[f] == Unsettled()
    requires s0.queue == [RegisterValue(f, ValueCallback(n)), RegisterError(f, ErrorCallback(n + 1)), Resolve(f, o)]
    ensures Steps(s0, 2).log == s0.log
    ensures var r := Steps(s0, 3);
            && (o.Value? ==> r.log == s0.log + [Delivered(n, o)])
            && (o.Error? ==> r.log == s0.log + [Delivered(n + 1, o)])
            && r.heap[f] == Future(Some(o), [], [])
            && |r.queue| == 0
  {
    var s1 := Step(s0);
    UnsettledValueRegistration(s0, f, ValueCallback(n));
    assert s1.heap[f] == Future(None, [ValueCallback(n)], []);
    var s2 := Step(s1);
    UnsettledErrorRegistration(s1, f, ErrorCallback(n + 1));
    var fs := s2.heap[f];
    assert fs == Future(None, [ValueCallback(n)], [ErrorCallback(n + 1)]);
    assert s2.queue == [Resolve(f, o)];
    var s3 := Step(s2);
    ResolveDelivers(s2, f, o);
    ResolveForwards(s2, f, o);
    assert Forwards(fs.valueObservers) == [] && PassErrorTargets(fs.errorObservers) == [];
    assert o.Value? ==> Audience(fs, o) == [n];
    assert o.Error? ==> Audience(fs, o) == [n + 1];
    assert Steps(s0, 1) == s1;
    assert Steps(s0, 2) == s2;
    assert Steps(s0, 3) == s3;
  }

  /** Nothing is received before the settlement runs; afterwards exactly the
      callback of the matching channel ran, once, with the resolved payload. */
  lemma WaitForOutcome<V, E>(w: World<V, E>, o: Outcome<V, E>)
    requires Valid(w) && |w.queue| == 0
    ensures Steps(WaitProgram(w, o), 2).log == w.log
    ensures var n := w.nextObserver;
            var r := Steps(WaitProgram(w, o), 3);
            && (o.Value? ==> r.log == w.log + [Delivered(n, o)])
            && (o.Error? ==> r.log == w.log + [Delivered(n + 1, o)])
            && r.heap[|w.heap|] == Future(Some(o), [], [])
            && |r.queue| == 0
  {
    WaitCalls(w, o);
    WaitRun(WaitProgram(w, o), |w.heap|, w.nextObserver, o);
  }

  // ---------------------------------------------------------------------
  // chained subscriptions

  /** `future.onValue(a).onValue(b)` and `future.onError(c).onError(d)` on a
      fresh promise's future, each second call made on the future the first
      returned, and then the promise is resolved with `o`. */
  function ChainedProgram<V, E>(w: World<V, E>, o: Outcome<V, E>): World<V, E>
  {
    var c := NewPromise(w);
    var f := c.promise.future;
    var a := OnValue(c.world, f);
    var b := OnValue(a.world, a.future);
    var x := OnError(b.world, f);
    var y := OnError(x.world, x.future);
    ResolveFuture(y.world, f, o)
  }

  /** The calls themselves deliver nothing: they dispatch the four
      registrations, in call order, and then the settlement. */
  lemma ChainedCalls<V, E>(w: World<V, E>, o: Outcome<V, E>)
    requires Valid(w) && |w.queue| == 0
    ensures var s0 := ChainedProgram(w, o); var n := w.nextObserver; var f := |w.heap|;
            && Closed(s0) && s0.log == w.log && f < |s0.heap| && s0.heap[f] == Unsettled()
            && s0.queue == [RegisterValue(f, ValueCallback(n)), RegisterValue(f, ValueCallback(n + 1)),
                            RegisterError(f, ErrorCallback(n + 2)), RegisterError(f, ErrorCallback(n + 3)),
                            Resolve(f, o)]
  {
    var c := NewPromise(w);
    NewPromisePreservesValid(w);
    var f := c.promise.future;
    var a := OnValue(c.world, f);
    OnValuePreservesValid(c.world, f);
    var b := OnValue(a.world, a.future);
    OnValuePreservesValid(a.world, a.future);
    var x := OnError(b.world, f);
    OnErrorPreservesValid(b.world, f);
    var y := OnError(x.world, x.future);
    OnErrorPreservesValid(x.world, x.future);
    ResolveFuturePreservesValid(y.world, f, o);
  }

  /** The four registrations run first and are all stored, in call order. */
  lemma ChainedRegistrations<V, E>(s0: World<V, E>, f: FutureId, n: ObserverId, o: Outcome<V, E>)
    requires Closed(s0) && f < |s0.heap| && s0.heap[f] == Unsettled()
    requires s0.queue == [RegisterValue(f, ValueCallback(n)), RegisterValue(f, ValueCallback(n + 1)),
                          RegisterError(f, ErrorCallback(n + 2)), RegisterError(f, ErrorCallback(n + 3)),
                          Resolve(f, o)]
    ensures var s4 := Steps(s0, 4);
            && s4.heap[f] == Future(None, [ValueCallback(n), ValueCallback(n + 1)], [ErrorCallback(n + 2), ErrorCallback(n + 3)])
            && s4.queue == [Resolve(f, o)] && s4.log == s0.log
  {
    var s1 := Step(s0);
    UnsettledValueRegistration(s0, f, ValueCallback(n));
    assert s1.heap[f] == Future(None, [ValueCallback(n)], []);
    var s2 := Step(s1);
    UnsettledValueRegistration(s1, f, ValueCallback(n + 1));
    assert s2.heap[f] == Future(None, [ValueCallback(n), ValueCallback(n + 1)], []);
    var s3 := Step(s2);
    UnsettledErrorRegistration(s2, f, ErrorCallback(n + 2));
    assert s3.heap[f] == Future(None, [ValueCallback(n), ValueCallback(n + 1)], [ErrorCallback(n + 2)]);
    var s4 := Step(s3);
    UnsettledErrorRegistration(s3, f, ErrorCallback(n + 3));
    assert Steps(s0, 1) == s1;
    assert Steps(s0, 2) == s2;
    assert Steps(s0, 3) == s3;
    assert Steps(s0, 4) == s4;
  }

  /** The last task: resolving a future holding two callbacks per channel
      runs the two of the matching channel, in order, and dispatches nothing. */
  lemma ResolveTwoEach<V, E>(s: World<V, E>, f: FutureId, o: Outcome<V, E>, n: ObserverId)
    requires Closed(s) && s.queue == [Resolve(f, o)] && f < |s.heap|
    requires s.heap[f] == Future(None, [ValueCallback(n), ValueCallback(n + 1)], [ErrorCallback(n + 2), ErrorCallback(n + 3)])
    ensures var r := Step(s);
            && (o.Value? ==> r.log == s.log + [Delivered(n, o), Delivered(n + 1, o)])
            && (o.Error? ==> r.log == s.log + [Delivered(n + 2, o), Delivered(n + 3, o)])
            && |r.queue| == 0
  {
    ResolveDelivers(s, f, o);
    ResolveForwards(s, f, o);
    var fs := s.heap[f];
    assert Forwards(fs.valueObservers) == [];
    assert PassErrorTargets(fs.errorObservers) == [];
    assert o.Value? ==> Audience(fs, o) == [n, n + 1];
    assert o.Error? ==> Audience(fs, o) == [n + 2, n + 3];
  }

  /** Nothing is delivered by the calls themselves; after the queue runs, the
      two value callbacks ran with the value, in call order, and the error
      callbacks never ran (and symmetrically for an error). */
  lemma ChainedSubscriptions<V, E>(w: World<V, E>, o: Outcome<V, E>)
    requires Valid(w) && |w.queue| == 0
    ensures ChainedProgram(w, o).log == w.log
    ensures var n := w.nextObserver;
            var r := Steps(ChainedProgram(w, o), 5);
            && (o.Value? ==> r.log == w.log + [Delivered(n, o), Delivered(n + 1, o)])
            && (o.Error? ==> r.log == w.log + [Delivered(n + 2, o), Delivered(n + 3, o)])
            && |r.queue| == 0
  {
    var s0 := ChainedProgram(w, o);
    ChainedCalls(w, o);
    ChainedRegistrations(s0, |w.heap|, w.nextObserver, o);
    ResolveTwoEach(Steps(s0, 4), |w.heap|, o, w.nextObserver);
  }

  // ---------------------------------------------------------------------
  // subscribing after settlement

  /** The promise is resolved with `o` first and only then are `onValue` and
      `onError` called on its future. */
  function LateProgram<V, E>(w: World<V, E>, o: Outcome<V, E>): World<V, E>
  {
    var c := NewPromise(w);
    var f := c.promise.future;
    var s := ResolveFuture(c.world, f, o);
    var a := OnValue(s, f);
    OnError(a.world, f).world
  }

  /** The calls deliver nothing; the settlement is queued ahead of both
      registrations. */
  lemma LateCalls<V, E>(w: World<V, E>, o: Outcome<V, E>)
    requires Valid(w) && |w.queue| == 0
    ensures var s0 := LateProgram(w, o); var n := w.nextObserver; var f := |w.heap|;
            && Closed(s0) && s0.log == w.log && f < |s0.heap| && s0.heap[f] == Unsettled()
            && s0.queue == [Resolve(f, o), RegisterValue(f, ValueCallback(n)), RegisterError(f, ErrorCallback(n + 1))]
  {
    var c := NewPromise(w);
    NewPromisePreservesValid(w);
    var f := c.promise.future;
    ResolveFuturePreservesValid(c.world, f, o);
    var s := ResolveFuture(c.world, f, o);
    var a := OnValue(s, f);
    OnValuePreservesValid(s, f);
    OnErrorPreservesValid(a.world, f);
  }

  /** The settlement runs first, with nobody to deliver to; each registration
      then fires at once if its channel matches and is dropped otherwise. */
  lemma LateRun<V, E>(s0: World<V, E>, f: FutureId, n: ObserverId, o: Outcome<V, E>)
    requires Closed(s0) && f < |s0.heap| && s0.heap[f] == Unsettled()
    requires s0.queue == [Resolve(f, o), RegisterValue(f, ValueCallback(n)), RegisterError(f, ErrorCallback(n + 1))]
    ensures var r := Steps(s0, 3);
            && (o.Value? ==> r.log == s0.log + [Delivered(n, o)])
            && (o.Error? ==> r.log == s0.log + [Delivered(n + 1, o)])
            && r.heap[f] == Future(Some(o), [], [])
            && |r.queue| == 0
  {
    var s1 := Step(s0);
    ResolveDelivers(s0, f, o);
    ResolveForwards(s0, f, o);
    assert Forwards(s0.heap[f].valueObservers) == [] && PassErrorTargets(s0.heap[f].errorObservers) == [];
    assert s1.heap[f] == Future(Some(o), [], []) && s1.log == s0.log;
    assert s1.queue == [RegisterValue(f, ValueCallback(n)), RegisterError(f, ErrorCallback(n + 1))];
    var s2 := Step(s1);
    LateValueRegistration(s1, f, ValueCallback(n));
    var s3 := Step(s2);
    LateErrorRegistration(s2, f, ErrorCallback(n + 1));
    assert Steps(s0, 1) == s1;
    assert Steps(s0, 2) == s2;
    assert Steps(s0, 3) == s3;
  }

  /** Subscribing after settlement still delivers, once and asynchronously,
      on the matching channel only; the observers are not stored. */
  lemma LateSubscription<V, E>(w: World<V, E>, o: Outcome<V, E>)
    requires Valid(w) && |w.queue| == 0
    ensures LateProgram(w, o).log == w.log
    ensures var n := w.nextObserver;
            var r := Steps(LateProgram(w, o), 3);
            && (o.Value? ==> r.log == w.log + [Delivered(n, o)])
            && (o.Error? ==> r.log == w.log + [Delivered(n + 1, o)])
            && r.heap[|w.heap|] == Future(Some(o), [], [])
            && |r.queue| == 0
  {
    LateCalls(w, o);
    LateRun(LateProgram(w, o), |w.heap|, w.nextObserver, o);
  }

  // ---------------------------------------------------------------------
  // resolving twice

  /** A promise resolved with `first`, then resolved again with `second`, and
      only then observed on both channels. */
  function DoubleResolveProgram<V, E>(w: World<V, E>, first: Outcome<V, E>, second: Outcome<V, E>): World<V, E>
  {
    var c := NewPromise(w);
    var f := c.promise.future;
    var s := ResolveFuture(c.world, f, first);
    var s' := ResolveFuture(s, f, second);
    var a := OnValue(s', f);
    OnError(a.world, f).world
  }

  /** Both settlements are queued, in call order, ahead of both registrations. */
  lemma DoubleResolveCalls<V, E>(w: World<V, E>, first: Outcome<V, E>, second: Outcome<V, E>)
    requires Valid(w) && |w.queue| == 0
    ensures var s0 := DoubleResolveProgram(w, first, second); var n := w.nextObserver; var f := |w.heap|;
            && Closed(s0) && s0.log == w.log && f < |s0.heap| && s0.heap[f] == Unsettled()
            && s0.queue == [Resolve(f, first), Resolve(f, second),
                            RegisterValue(f, ValueCallback(n)), RegisterError(f, ErrorCallback(n + 1))]
  {
    var c := NewPromise(w);
    NewPromisePreservesValid(w);
    var f := c.promise.future;
    ResolveFuturePreservesValid(c.world, f, first);
    var s := ResolveFuture(c.world, f, first);
    ResolveFuturePreservesValid(s, f, second);
    var s' := ResolveFuture(s, f, second);
    var a := OnValue(s', f);
    OnValuePreservesValid(s', f);
    OnErrorPreservesValid(a.world, f);
  }

  /** Both settlements run before either registration: the outcome is
      overwritten, nothing is delivered, and the registrations wait. */
  lemma DoubleResolveSettles<V, E>(s0: World<V, E>, f: FutureId, n: ObserverId, first: Outcome<V, E>, second: Outcome<V, E>)
    requires Closed(s0) && f < |s0.heap| && s0.heap[f] == Unsettled()
    requires s0.queue == [Resolve(f, first), Resolve(f, second),
                          RegisterValue(f, ValueCallback(n)), RegisterError(f, ErrorCallback(n + 1))]
    ensures var s2 := Steps(s0, 2);
            && s2.heap[f] == Future(Some(second), [], []) && s2.log == s0.log
            && s2.queue == [RegisterValue(f, ValueCallback(n)), RegisterError(f, ErrorCallback(n + 1))]
  {
    var s1 := Step(s0);
    ResolveDelivers(s0, f, first);
    ResolveForwards(s0, f, first);
    assert Forwards(s0.heap[f].valueObservers) == [] && PassErrorTargets(s0.heap[f].errorObservers) == [];
    assert s1.heap[f] == Future(Some(first), [], []) && s1.log == s0.log;
    var s2 := Step(s1);
    ResolveDelivers(s1, f, second);
    ResolveForwards(s1, f, second);
    assert Forwards(s1.heap[f].valueObservers) == [] && PassErrorTargets(s1.heap[f].errorObservers) == [];
    assert Steps(s0, 1) == s1;
    assert Steps(s0, 2) == s2;
  }

  /** The two registrations on the overwritten future: each fires at once
      with `second` if its channel matches. */
  lemma DoubleResolveObserved<V, E>(s2: World<V, E>, f: FutureId, n: ObserverId, second: Outcome<V, E>)
    requires Closed(s2) && f < |s2.heap| && s2.heap[f] == Future(Some(second), [], [])
    requires s2.queue == [RegisterValue(f, ValueCallback(n)), RegisterError(f, ErrorCallback(n + 1))]
    ensures var r := Step(Step(s2));
            && r.heap[f].result == Some(second)
            && (second.Value? ==> r.log == s2.log + [Delivered(n, second)])
            && (second.Error? ==> r.log == s2.log + [Delivered(n + 1, second)])
  {
    var s3 := Step(s2);
    LateValueRegistration(s2, f, ValueCallback(n));
    assert s3.heap == s2.heap && s3.queue == [RegisterError(f, ErrorCallback(n + 1))];
    LateErrorRegistration(s3, f, ErrorCallback(n + 1));
  }

  /** As written, the second resolve overwrites the outcome: observers that
      subscribe afterwards see `second`, not `first`. */
  lemma DoubleResolveOverwrites<V, E>(w: World<V, E>, first: Outcome<V, E>, second: Outcome<V, E>)
    requires Valid(w) && |w.queue| == 0
    ensures var n := w.nextObserver;
            var r := Steps(DoubleResolveProgram(w, first, second), 4);
            && r.heap[|w.heap|].result == Some(second)
            && (second.Value? ==> r.log == w.log + [Delivered(n, second)])
            && (second.Error? ==> r.log == w.log + [Delivered(n + 1, second)])
  {
    var s0 := DoubleResolveProgram(w, first, second);
    DoubleResolveCalls(w, first, second);
    DoubleResolveSettles(s0, |w.heap|, w.nextObserver, first, second);
    DoubleResolveObserved(Steps(s0, 2), |w.heap|, w.nextObserver, second);
    assert Steps(s0, 4) == Step(Step(Steps(s0, 2)));
  }

  // ---------------------------------------------------------------------
  // a callback lost to re-settlement

  /** A promise resolved with `Value(v)`, then observed on the error channel,
      then resolved again with `Error(e)`. */
  function LostProgram<V, E>(w: World<V, E>, v: V, e: E): World<V, E>
  {
    var c := NewPromise(w);
    var f := c.promise.future;
    var s := ResolveFuture(c.world, f, Value(v));
    var a := OnError(s, f);
    ResolveFuture(a.world, f, Error(e))
  }

  /** The registration is queued between the two settlements. */
  lemma LostCalls<V, E>(w: World<V, E>, v: V, e: E)
    requires Valid(w) && |w.queue| == 0
    ensures var s0 := LostProgram(w, v, e); var n := w.nextObserver; var f := |w.heap|;
            && Closed(s0) && s0.log == w.log && f < |s0.heap| && s0.heap[f] == Unsettled()
            && s0.queue == [Resolve(f, Value(v)), RegisterError(f, ErrorCallback(n)), Resolve(f, Error(e))]
  {
    var c := NewPromise(w);
    NewPromisePreservesValid(w);
    var f := c.promise.future;
    ResolveFuturePreservesValid(c.world, f, Value(v));
    var s := ResolveFuture(c.world, f, Value(v));
    OnErrorPreservesValid(s, f);
    ResolveFuturePreservesValid(OnError(s, f).world, f, Error(e));
  }

  /** The registration finds a value and is dropped; the error settlement
      then finds both lists empty. */
  lemma LostRun<V, E>(s0: World<V, E>, f: FutureId, n: ObserverId, v: V, e: E)
    requires Closed(s0) && f < |s0.heap| && s0.heap[f] == Unsettled()
    requires s0.queue == [Resolve(f, Value(v)), RegisterError(f, ErrorCallback(n)), Resolve(f, Error(e))]
    ensures var r := Steps(s0, 3);
            && r.heap[f] == Future(Some(Error(e)), [], []) && r.log == s0.log && |r.queue| == 0
  {
    var s1 := Step(s0);
    ResolveDelivers(s0, f, Value(v));
    ResolveForwards(s0, f, Value(v));
    assert Forwards(s0.heap[f].valueObservers) == [];
    assert s1.heap[f] == Future(Some(Value(v)), [], []) && s1.log == s0.log;
    assert s1.queue == [RegisterError(f, ErrorCallback(n)), Resolve(f, Error(e))];
    var s2 := Step(s1);
    LateErrorRegistration(s1, f, ErrorCallback(n));
    assert s2.heap == s1.heap && s2.log == s1.log && s2.queue == [Resolve(f, Error(e))];
    var s3 := Step(s2);
    ResolveDelivers(s2, f, Error(e));
    ResolveForwards(s2, f, Error(e));
    assert PassErrorTargets(s2.heap[f].errorObservers) == [];
    assert Steps(s0, 1) == s1;
    assert Steps(s0, 2) == s2;
    assert Steps(s0, 3) == s3;
  }

  /** As written, an error callback registered between a value settlement and
      an error re-settlement never runs: the future ends settled with the
      error, the queue idle, and the callback's identity absent from the log. */
  lemma CallbackLost<V, E>(w: World<V, E>, v: V, e: E)
    requires Valid(w) && |w.queue| == 0
    ensures var r := Steps(LostProgram(w, v, e), 3);
            && r.heap[|w.heap|].result == Some(Error(e)) && |r.queue| == 0
            && forall i :: 0 <= i < |r.log| ==> r.log[i].observer != w.nextObserver
  {
    var s0 := LostProgram(w, v, e);
    LostCalls(w, v, e);
    LostRun(s0, |w.heap|, w.nextObserver, v, e);
    LoggedIdsIssued(w);
  }
}
