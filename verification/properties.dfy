/** What one run of the serial queue does, task kind by task kind, stated
    over the heap, the queue and the event log. */
module FutureProperties {
  import opened Futures
  import opened Invariants

  /** A registration on an unsettled future appends the observer to the value
      list and changes nothing else: no callback runs, the error list and the
      outcome stay, other futures stay. */
  lemma UnsettledValueRegistration<V, E>(w: World<V, E>, f: FutureId, o: ValueObserver<V>)
    requires Closed(w) && |w.queue| > 0 && w.queue[0] == RegisterValue(f, o)
    requires f < |w.heap| && w.heap[f].result.None?
    ensures var r := Step(w);
            && r.heap[f].valueObservers == w.heap[f].valueObservers + [o]
            && r.heap[f].errorObservers == w.heap[f].errorObservers
            && r.heap[f].result.None?
            && (forall g :: 0 <= g < |w.heap| && g != f ==> r.heap[g] == w.heap[g])
            && r.log == w.log && r.queue == w.queue[1..]
  {
  }

  /** The error-channel counterpart of `UnsettledValueRegistration`. */
  lemma UnsettledErrorRegistration<V, E>(w: World<V, E>, f: FutureId, o: ErrorObserver)
    requires Closed(w) && |w.queue| > 0 && w.queue[0] == RegisterError(f, o)
    requires f < |w.heap| && w.heap[f].result.None?
    ensures var r := Step(w);
            && r.heap[f].errorObservers == w.heap[f].errorObservers + [o]
            && r.heap[f].valueObservers == w.heap[f].valueObservers
            && r.heap[f].result.None?
            && (forall g :: 0 <= g < |w.heap| && g != f ==> r.heap[g] == w.heap[g])
            && r.log == w.log && r.queue == w.queue[1..]
  {
  }

  /** Registering a value observer on a settled future never stores it: on a
      value it fires with that value (a callback runs, a forwarder dispatches
      the derived settlement with the transformed value); on an error it
      never fires. */
  lemma LateValueRegistration<V, E>(w: World<V, E>, f: FutureId, o: ValueObserver<V>)
    requires Closed(w) && |w.queue| > 0 && w.queue[0] == RegisterValue(f, o)
    requires f < |w.heap| && w.heap[f].result.Some?
    ensures var r := Step(w);
            && r.heap == w.heap
            && (w.heap[f].result.value.Error? ==> r.log == w.log && r.queue == w.queue[1..])
            && (w.heap[f].result.value.Value? && o.ValueCallback? ==>
                  r.log == w.log + [Delivered(o.id, w.heap[f].result.value)] && r.queue == w.queue[1..])
            && (w.heap[f].result.value.Value? && o.Forward? ==>
                  r.log == w.log
                  && r.queue == w.queue[1..] + [Resolve(o.dst, Value(o.transform(w.heap[f].result.value.value)))])
  {
  }

  /** The error-channel counterpart of `LateValueRegistration`; the
      error is passed on to a derived future unchanged. */
  lemma LateErrorRegistration<V, E>(w: World<V, E>, f: FutureId, o: ErrorObserver)
    requires Closed(w) && |w.queue| > 0 && w.queue[0] == RegisterError(f, o)
    requires f < |w.heap| && w.heap[f].result.Some?
    ensures var r := Step(w);
            && r.heap == w.heap
            && (w.heap[f].result.value.Value? ==> r.log == w.log && r.queue == w.queue[1..])
            && (w.heap[f].result.value.Error? && o.ErrorCallback? ==>
                  r.log == w.log + [Delivered(o.id, w.heap[f].result.value)] && r.queue == w.queue[1..])
            && (w.heap[f].result.value.Error? && o.PassError? ==>
                  r.log == w.log && r.queue == w.queue[1..] + [Resolve(o.dst, w.heap[f].result.value)])
  {
  }

  /** The client callbacks a resolve with `o` runs: the pending list of the
      matching channel, in registration order. */
  function Audience<V, E>(fs: Future<V, E>, o: Outcome<V, E>): seq<ObserverId>
  {
    if o.Value? then ValueCallbackIds(fs.valueObservers) else ErrorCallbackIds(fs.errorObservers)
  }

  /** A resolve task records the outcome, runs every pending callback of the
      matching channel once, in registration order and with the resolved
      payload, runs none of the other channel, and leaves both lists empty. */
  lemma ResolveDelivers<V, E>(w: World<V, E>, f: FutureId, o: Outcome<V, E>)
    requires Closed(w) && |w.queue| > 0 && w.queue[0] == Resolve(f, o)
    requires f < |w.heap|
    ensures var r := Step(w); var ids := Audience(w.heap[f], o);
            && r.heap[f].result == Some(o)
            && |r.heap[f].valueObservers| == 0 && |r.heap[f].errorObservers| == 0
            && (forall g :: 0 <= g < |w.heap| && g != f ==> r.heap[g] == w.heap[g])
            && w.log <= r.log && |r.log| == |w.log| + |ids|
            && (forall i :: 0 <= i < |ids| ==> r.log[|w.log| + i] == Delivered(ids[i], o))
  {
    var fs := w.heap[f].(result := Some(o));
    var w' := w.(queue := w.queue[1..]);
    assert Step(w) == ResolveTask(w', f, o);
    ResolveTaskLog(w', f, o);
    CallbacksReachAudience(fs, o);
    assert Audience(fs, o) == Audience(w.heap[f], o);
  }

  /** The log a resolve task leaves: the events of running the stored
      callbacks, after the old log. */
  lemma ResolveTaskLog<V, E>(w: World<V, E>, f: FutureId, o: Outcome<V, E>)
    requires Closed(w) && f < |w.heap|
    ensures ResolveTask(w, f, o).log == w.log + RunStoredCallbacks(w.heap[f].(result := Some(o))).events
  {
  }

  /** Running the stored callbacks of a future settled with `o` produces one
      event per member of its audience, in order, carrying `o`. */
  lemma CallbacksReachAudience<V, E>(fs: Future<V, E>, o: Outcome<V, E>)
    requires fs.result == Some(o)
    ensures var ids := Audience(fs, o); var ev := RunStoredCallbacks(fs).events;
            && |ev| == |ids|
            && forall i :: 0 <= i < |ids| ==> ev[i] == Delivered(ids[i], o)
  {
    match o
    case Value(v) =>
      assert RunStoredCallbacks(fs) == FireValues(fs.valueObservers, v);
    case Error(e) =>
      assert RunStoredCallbacks(fs) == FireErrors(fs.errorObservers, e);
  }

  /** What a resolve task leaves on the queue: for a value, one settlement of
      each `map`-derived future with the transformed value; for an error, one
      settlement of each derived future with the same error, the transform
      never being applied. Registration order is kept. */
  lemma ResolveForwards<V, E>(w: World<V, E>, f: FutureId, o: Outcome<V, E>)
    requires Closed(w) && |w.queue| > 0 && w.queue[0] == Resolve(f, o)
    requires f < |w.heap|
    ensures var r := Step(w); var rest := w.queue[1..];
            && rest <= r.queue
            && (o.Value? ==>
                  var fw := Forwards(w.heap[f].valueObservers);
                  && |r.queue| == |rest| + |fw|
                  && forall i :: 0 <= i < |fw| ==>
                       r.queue[|rest| + i] == Resolve(fw[i].dst, Value(fw[i].transform(o.value))))
            && (o.Error? ==>
                  var ds := PassErrorTargets(w.heap[f].errorObservers);
                  && |r.queue| == |rest| + |ds|
                  && forall i :: 0 <= i < |ds| ==> r.queue[|rest| + i] == Resolve(ds[i], o))
  {
    var fs := w.heap[f].(result := Some(o));
    var eff := RunStoredCallbacks(fs);
    assert Step(w).queue == w.queue[1..] + eff.tasks;
  }

  /** Resolving a future that is already settled (as the source allows)
      records the new outcome but runs no callback and dispatches nothing:
      settlement drained both lists, so nothing registered earlier runs again. */
  lemma SecondResolve<V, E>(w: World<V, E>, f: FutureId, o: Outcome<V, E>)
    requires Valid(w) && |w.queue| > 0 && w.queue[0] == Resolve(f, o)
    requires f < |w.heap| && w.heap[f].result.Some?
    ensures var r := Step(w);
            && r.log == w.log && r.queue == w.queue[1..]
            && r.heap == w.heap[f := Future(Some(o), [], [])]
  {
    assert |w.heap[f].valueObservers| == 0 && |w.heap[f].errorObservers| == 0;
    var r := Step(w);
    ResolveDelivers(w, f, o);
    ResolveForwards(w, f, o);
    assert Forwards(w.heap[f].valueObservers) == [];
    assert PassErrorTargets(w.heap[f].errorObservers) == [];
    assert r.heap[f] == Future(Some(o), [], []);
  }

  /** The `map` setup task subscribes the derived future's two forwarders to
      the source, each through its own dispatched registration, value first. */
  lemma MapSetupSubscribes<V, E>(w: World<V, E>, src: FutureId, dst: FutureId, transform: V -> V)
    requires Closed(w) && |w.queue| > 0 && w.queue[0] == MapSetup(src, dst, transform)
    ensures var r := Step(w);
            && r.heap == w.heap && r.log == w.log
            && r.queue == w.queue[1..] + [RegisterValue(src, Forward(dst, transform)), RegisterError(src, PassError(dst))]
  {
  }
}
