/** Client programs over the futures: any interleaving of public calls with
    runs of the serial queue. A client callback that calls back into the
    library is approximated by the client making that call after the whole
    step that ran the callback. When the same step also runs `map`
    forwarders, the real call would be dispatched between their settlements.
    Programs do not reproduce that order.

    `Settle` may name any future, including one `map` derived; in the library
    only a promise's own future can be resolved. This allows more programs
    than the library does, which is sound for the safety theorems here. */
module Programs {
  import opened Futures
  import opened Invariants
  import opened Promises

  datatype Action<!V, E> =
    | SubscribeValue(fut: FutureId)
    | SubscribeError(fut: FutureId)
    | Transform(src: FutureId, transform: V -> V)
    | CreatePromise
    | Settle(promise: Promise, outcome: Outcome<V, E>)
    | RunNext

  /** The action only names futures that exist. */
  ghost predicate Enabled<V, E>(w: World<V, E>, a: Action<V, E>)
  {
    match a
    case SubscribeValue(f) => f < |w.heap|
    case SubscribeError(f) => f < |w.heap|
    case Transform(src, _) => src < |w.heap|
    case CreatePromise => true
    case Settle(p, _) => p.future < |w.heap|
    case RunNext => true
  }

  /** One client action; every one of them keeps the invariant. */
  function Perform<V, E>(w: World<V, E>, a: Action<V, E>): (r: World<V, E>)
    requires Valid(w) && Enabled(w, a)
    ensures Valid(r)
    ensures w.log <= r.log
    ensures w.nextObserver <= r.nextObserver && |w.heap| <= |r.heap|
    ensures forall g :: 0 <= g < |w.heap| && w.heap[g].result.Some? ==> r.heap[g].result.Some?
  {
    match a
    case SubscribeValue(f) =>
      OnValuePreservesValid(w, f);
      OnValue(w, f).world
    case SubscribeError(f) =>
      OnErrorPreservesValid(w, f);
      OnError(w, f).world
    case Transform(src, transform) =>
      MapPreservesValid(w, src, transform);
      Map(w, src, transform).world
    case CreatePromise =>
      NewPromisePreservesValid(w);
      NewPromise(w).world
    case Settle(p, o) =>
      ResolveFuturePreservesValid(w, p.future, o);
      (match o
       case Value(v) => ResolveValue(w, p, v)
       case Error(e) => ResolveError(w, p, e))
    case RunNext =>
      StepPreservesValid(w);
      Step(w)
  }

  /** Every action of the program is enabled when its turn comes. */
  ghost predicate Executable<V, E>(w: World<V, E>, acts: seq<Action<V, E>>)
    decreases |acts|
  {
    Valid(w) && (|acts| == 0 || (Enabled(w, acts[0]) && Executable(Perform(w, acts[0]), acts[1..])))
  }

  function Run<V, E>(w: World<V, E>, acts: seq<Action<V, E>>): (r: World<V, E>)
    requires Executable(w, acts)
    ensures Valid(r)
    ensures w.log <= r.log && |w.heap| <= |r.heap|
    ensures forall g :: 0 <= g < |w.heap| && w.heap[g].result.Some? ==> r.heap[g].result.Some?
    decreases |acts|
  {
    if |acts| == 0 then w else Run(Perform(w, acts[0]), acts[1..])
  }

  /** Every registered callback runs at most once, whatever the program does:
      whether it registers before or after settlement, and even when the same
      promise is resolved again. Every callback that ran was registered. */
  lemma AtMostOnce<V, E>(acts: seq<Action<V, E>>)
    requires Executable(Initial<V, E>(), acts)
    ensures var r := Run(Initial<V, E>(), acts);
            forall id: ObserverId :: multiset(LogIds(r.log))[id] <= 1
    ensures var r := Run(Initial<V, E>(), acts);
            forall i :: 0 <= i < |r.log| ==> r.log[i].observer < r.nextObserver
  {
    var r := Run(Initial<V, E>(), acts);
    forall id: ObserverId
      ensures multiset(LogIds(r.log))[id] <= 1
    {
      assert multiset(LogIds(r.log))[id] <= ObserverIds(r)[id];
    }
    LoggedIdsIssued(r);
  }

  /** The serial queue running `n` times (fewer if it empties). */
  function Steps<V, E>(w: World<V, E>, n: nat): (r: World<V, E>)
    requires Closed(w)
    ensures Closed(r) && |r.heap| == |w.heap| && r.nextObserver == w.nextObserver
    ensures w.log <= r.log
    decreases n
  {
    if n == 0 then w else Step(Steps(w, n - 1))
  }
}
