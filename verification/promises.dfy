/** `IPromise`: the write capability of one future. It owns the future it
    creates, hands it out read-only through `future`, and its two `resolve`
    operations only delegate to the future's private resolve. */
module Promises {
  import opened Futures
  import opened Invariants

  datatype Promise = Promise(future: FutureId)

  datatype Created<!V, E> = Created(world: World<V, E>, promise: Promise)

  /** `init()`: a fresh, unsettled future nobody else refers to yet. */
  function NewPromise<V, E>(w: World<V, E>): (r: Created<V, E>)
    ensures r.promise.future == |w.heap|
    ensures r.world.heap == w.heap + [Unsettled()]
    ensures r.world.queue == w.queue && r.world.log == w.log && r.world.nextObserver == w.nextObserver
  {
    var h := NewFuture(w);
    Created(h.world, Promise(h.future))
  }

  /** `resolve(value:)`: dispatches the settlement and does nothing else now. */
  function ResolveValue<V, E>(w: World<V, E>, p: Promise, v: V): (r: World<V, E>)
    requires p.future < |w.heap|
    ensures r.heap == w.heap && r.log == w.log && r.nextObserver == w.nextObserver
    ensures r.queue == w.queue + [Resolve(p.future, Value(v))]
  {
    ResolveFuture(w, p.future, Value(v))
  }

  /** `resolve(error:)`: dispatches the settlement and does nothing else now. */
  function ResolveError<V, E>(w: World<V, E>, p: Promise, e: E): (r: World<V, E>)
    requires p.future < |w.heap|
    ensures r.heap == w.heap && r.log == w.log && r.nextObserver == w.nextObserver
    ensures r.queue == w.queue + [Resolve(p.future, Error(e))]
  {
    ResolveFuture(w, p.future, Error(e))
  }

  /** Creating a promise keeps every reachable-world invariant. */
  lemma NewPromisePreservesValid<V, E>(w: World<V, E>)
    requires Valid(w)
    ensures Valid(NewPromise(w).world)
  {
    NewFuturePreservesValid(w);
  }
}
