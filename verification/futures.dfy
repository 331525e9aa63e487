/** The write-once future of iPromise (class `IFuture`), with the serial
    dispatch queue made explicit.

    Every future lives in a heap indexed by `FutureId`. All of them share one
    FIFO queue of pending units of work (`Task`s): a public operation only
    appends to that queue, and `Step` runs the task at its head. Swift closures
    are replaced by first-order observers: a client callback is an observer id
    whose firing is recorded in an event log, and the two closures that `map`
    installs are `Forward` / `PassError` records that enqueue a resolve of the
    derived future. All futures share one value type `V`, so the transform of
    `map` is a total function `V -> V`.
 */
module Futures {

  datatype Option<T> = None | Some(value: T)

  /** The settled outcome of a future (Swift `IFutureResult`). */
  datatype Outcome<V, E> = Value(value: V) | Error(error: E)

  type FutureId = nat
  type ObserverId = nat

  /** An entry of a future's pending value-observer list. */
  datatype ValueObserver<!V> =
    | ValueCallback(id: ObserverId)
    | Forward(dst: FutureId, transform: V -> V)

  /** An entry of a future's pending error-observer list. */
  datatype ErrorObserver =
    | ErrorCallback(id: ObserverId)
    | PassError(dst: FutureId)

  /** The mutable state of one `IFuture`: its outcome and both pending lists. */
  datatype Future<!V, E> = Future(
    result: Option<Outcome<V, E>>,
    valueObservers: seq<ValueObserver<V>>,
    errorObservers: seq<ErrorObserver>)

  /** A freshly constructed future: unsettled, nobody waiting. */
  function Unsettled<V, E>(): Future<V, E>
  {
    Future(None, [], [])
  }

  /** A unit of work waiting on the serial queue. */
  datatype Task<!V, E> =
    | RegisterValue(fut: FutureId, valueObserver: ValueObserver<V>)
    | RegisterError(fut: FutureId, errorObserver: ErrorObserver)
    | Resolve(fut: FutureId, outcome: Outcome<V, E>)
    | MapSetup(src: FutureId, dst: FutureId, transform: V -> V)

  /** A client callback ran with this outcome. */
  datatype Event<V, E> = Delivered(observer: ObserverId, outcome: Outcome<V, E>)

  /** What running a batch of observers produces: callback events, in order,
      and tasks the forwarding observers put on the queue, in order. */
  datatype Effects<!V, E> = Effects(events: seq<Event<V, E>>, tasks: seq<Task<V, E>>)

  /** The whole system: every future, the serial queue, the callbacks that ran
      so far, and the next unused observer identity. */
  datatype World<!V, E> = World(
    heap: seq<Future<V, E>>,
    queue: seq<Task<V, E>>,
    log: seq<Event<V, E>>,
    nextObserver: ObserverId)

  /** What a public operation hands back: the new world and a future. */
  datatype Handle<!V, E> = Handle(world: World<V, E>, future: FutureId)

  function Initial<V, E>(): World<V, E>
  {
    World([], [], [], 0)
  }

  // ---------------------------------------------------------------------
  // Reference views of an observer list

  /** The client callbacks of a value-observer list, in registration order. */
  function ValueCallbackIds<V>(obs: seq<ValueObserver<V>>): (ids: seq<ObserverId>)
    ensures |ids| <= |obs|
  {
    if |obs| == 0 then []
    else (if obs[0].ValueCallback? then [obs[0].id] else []) + ValueCallbackIds(obs[1..])
  }

  /** The client callbacks of an error-observer list, in registration order. */
  function ErrorCallbackIds(obs: seq<ErrorObserver>): (ids: seq<ObserverId>)
    ensures |ids| <= |obs|
  {
    if |obs| == 0 then []
    else (if obs[0].ErrorCallback? then [obs[0].id] else []) + ErrorCallbackIds(obs[1..])
  }

  /** The forwarding observers of a value-observer list, in registration order. */
  function Forwards<V>(obs: seq<ValueObserver<V>>): (fw: seq<ValueObserver<V>>)
    ensures |fw| <= |obs|
    ensures forall i :: 0 <= i < |fw| ==> fw[i].Forward? && fw[i] in obs
  {
    if |obs| == 0 then []
    else (if obs[0].Forward? then [obs[0]] else []) + Forwards(obs[1..])
  }

  /** The destinations of the error-passing observers of a list, in order. */
  function PassErrorTargets(obs: seq<ErrorObserver>): (ds: seq<FutureId>)
    ensures |ds| <= |obs|
    ensures forall i :: 0 <= i < |ds| ==> PassError(ds[i]) in obs
  {
    if |obs| == 0 then []
    else (if obs[0].PassError? then [obs[0].dst] else []) + PassErrorTargets(obs[1..])
  }

  // ---------------------------------------------------------------------
  // Firing observers

  function Then<V, E>(a: Effects<V, E>, b: Effects<V, E>): Effects<V, E>
  {
    Effects(a.events + b.events, a.tasks + b.tasks)
  }

  /** Calling one value observer with `v`: a client callback runs, a `map`
      forwarder asks for the derived future to be resolved with `transform(v)`
      (which, being `resolve`, is itself dispatched onto the queue). */
  function FireValue<V, E>(o: ValueObserver<V>, v: V): Effects<V, E>
  {
    match o
    case ValueCallback(id) => Effects([Delivered(id, Value(v))], [])
    case Forward(dst, transform) => Effects([], [Resolve(dst, Value(transform(v)))])
  }

  /** Calling one error observer with `e`; `map` passes the error on unchanged. */
  function FireError<V, E>(o: ErrorObserver, e: E): Effects<V, E>
  {
    match o
    case ErrorCallback(id) => Effects([Delivered(id, Error(e))], [])
    case PassError(dst) => Effects([], [Resolve(dst, Error(e))])
  }

  /** The `for c in onValueClosures` loop: every observer once, in list order. */
  function FireValues<V, E>(obs: seq<ValueObserver<V>>, v: V): (r: Effects<V, E>)
    ensures |r.events| == |ValueCallbackIds(obs)|
    ensures forall i :: 0 <= i < |r.events| ==> r.events[i] == Delivered(ValueCallbackIds(obs)[i], Value(v))
    ensures |r.tasks| == |Forwards(obs)|
    ensures forall i :: 0 <= i < |r.tasks| ==>
              r.tasks[i] == Resolve(Forwards(obs)[i].dst, Value(Forwards(obs)[i].transform(v)))
  {
    if |obs| == 0 then Effects([], [])
    else Then(FireValue(obs[0], v), FireValues(obs[1..], v))
  }

  /** The `for c in onErrorClosures` loop: every observer once, in list order. */
  function FireErrors<V, E>(obs: seq<ErrorObserver>, e: E): (r: Effects<V, E>)
    ensures |r.events| == |ErrorCallbackIds(obs)|
    ensures forall i :: 0 <= i < |r.events| ==> r.events[i] == Delivered(ErrorCallbackIds(obs)[i], Error(e))
    ensures |r.tasks| == |PassErrorTargets(obs)|
    ensures forall i :: 0 <= i < |r.tasks| ==> r.tasks[i] == Resolve(PassErrorTargets(obs)[i], Error(e))
  {
    if |obs| == 0 then Effects([], [])
    else Then(FireError(obs[0], e), FireErrors(obs[1..], e))
  }

  /** `runStoredCallbacks`: the debug assertion that the future is settled is
      the precondition; only the list matching the outcome's channel runs, and
      everything it produces carries that very outcome's channel. */
  function RunStoredCallbacks<V, E>(fs: Future<V, E>): (r: Effects<V, E>)
    requires fs.result.Some?
    ensures forall i :: 0 <= i < |r.events| ==> r.events[i].outcome == fs.result.value
    ensures forall i :: 0 <= i < |r.tasks| ==> r.tasks[i].Resolve? && (r.tasks[i].outcome.Value? <==> fs.result.value.Value?)
    ensures fs.result.value.Error? ==> forall i :: 0 <= i < |r.tasks| ==> r.tasks[i].outcome == fs.result.value
    ensures fs.result.value.Value? ==> LogIds(r.events) == ValueCallbackIds(fs.valueObservers)
    ensures fs.result.value.Error? ==> LogIds(r.events) == ErrorCallbackIds(fs.errorObservers)
  {
    match fs.result.value
    case Value(v) => FireValues(fs.valueObservers, v)
    case Error(e) => FireErrors(fs.errorObservers, e)
  }

  /** `clearStoredCallbacks`: both pending lists emptied, outcome kept. */
  function ClearStoredCallbacks<V, E>(fs: Future<V, E>): (r: Future<V, E>)
    ensures r.result == fs.result
    ensures |r.valueObservers| == 0 && |r.errorObservers| == 0
  {
    fs.(valueObservers := [], errorObservers := [])
  }

  /** The observer ids of a stretch of the event log, in order. */
  function LogIds<V, E>(log: seq<Event<V, E>>): (ids: seq<ObserverId>)
    ensures |ids| == |log|
    ensures forall i :: 0 <= i < |log| ==> ids[i] == log[i].observer
  {
    seq(|log|, i requires 0 <= i < |log| => log[i].observer)
  }

  // ---------------------------------------------------------------------
  // Reference closure: every future id mentioned is allocated

  ghost predicate ValueObserverClosed<V>(o: ValueObserver<V>, n: nat)
  {
    o.Forward? ==> o.dst < n
  }

  ghost predicate ErrorObserverClosed(o: ErrorObserver, n: nat)
  {
    o.PassError? ==> o.dst < n
  }

  ghost predicate FutureClosed<V, E>(fs: Future<V, E>, n: nat)
  {
    && (forall j :: 0 <= j < |fs.valueObservers| ==> ValueObserverClosed(fs.valueObservers[j], n))
    && (forall j :: 0 <= j < |fs.errorObservers| ==> ErrorObserverClosed(fs.errorObservers[j], n))
  }

  ghost predicate TaskClosed<V, E>(t: Task<V, E>, n: nat)
  {
    match t
    case RegisterValue(f, o) => f < n && ValueObserverClosed(o, n)
    case RegisterError(f, o) => f < n && ErrorObserverClosed(o, n)
    case Resolve(f, _) => f < n
    case MapSetup(s, d, _) => s < n && d < n
  }

  /** No future id in the heap or on the queue is dangling: Swift references
      cannot dangle, so every reachable world has this shape. */
  ghost predicate Closed<V, E>(w: World<V, E>)
  {
    && (forall f :: 0 <= f < |w.heap| ==> FutureClosed(w.heap[f], |w.heap|))
    && (forall i :: 0 <= i < |w.queue| ==> TaskClosed(w.queue[i], |w.heap|))
  }

  lemma FireValuesClosed<V, E>(obs: seq<ValueObserver<V>>, v: V, n: nat)
    requires forall j :: 0 <= j < |obs| ==> ValueObserverClosed(obs[j], n)
    ensures forall i :: 0 <= i < |FireValues<V, E>(obs, v).tasks| ==> TaskClosed(FireValues<V, E>(obs, v).tasks[i], n)
  {
    var r := FireValues<V, E>(obs, v);
    forall i | 0 <= i < |r.tasks|
      ensures TaskClosed(r.tasks[i], n)
    {
      var o := Forwards(obs)[i];
      assert o in obs;
      var j :| 0 <= j < |obs| && obs[j] == o;
      assert ValueObserverClosed(obs[j], n);
    }
  }

  lemma FireErrorsClosed<V, E>(obs: seq<ErrorObserver>, e: E, n: nat)
    requires forall j :: 0 <= j < |obs| ==> ErrorObserverClosed(obs[j], n)
    ensures forall i :: 0 <= i < |FireErrors<V, E>(obs, e).tasks| ==> TaskClosed(FireErrors<V, E>(obs, e).tasks[i], n)
  {
    var r := FireErrors<V, E>(obs, e);
    forall i | 0 <= i < |r.tasks|
      ensures TaskClosed(r.tasks[i], n)
    {
      var d := PassErrorTargets(obs)[i];
      assert PassError(d) in obs;
      var j :| 0 <= j < |obs| && obs[j] == PassError(d);
      assert ErrorObserverClosed(obs[j], n);
    }
  }

  lemma RunStoredCallbacksClosed<V, E>(fs: Future<V, E>, n: nat)
    requires fs.result.Some? && FutureClosed(fs, n)
    ensures forall i :: 0 <= i < |RunStoredCallbacks(fs).tasks| ==> TaskClosed(RunStoredCallbacks(fs).tasks[i], n)
  {
    match fs.result.value
    case Value(v) => FireValuesClosed<V, E>(fs.valueObservers, v, n);
    case Error(e) => FireErrorsClosed<V, E>(fs.errorObservers, e, n);
  }

  // ---------------------------------------------------------------------
  // Running one task

  /** Adds observer effects: callbacks to the log, forwards to the queue tail. */
  function Apply<V, E>(w: World<V, E>, eff: Effects<V, E>): World<V, E>
  {
    w.(log := w.log + eff.events, queue := w.queue + eff.tasks)
  }

  /** The unit of work `onValue` dispatches. */
  function RegisterValueTask<V, E>(w: World<V, E>, f: FutureId, o: ValueObserver<V>): (r: World<V, E>)
    requires Closed(w) && f < |w.heap| && ValueObserverClosed(o, |w.heap|)
    ensures Closed(r) && |r.heap| == |w.heap| && r.nextObserver == w.nextObserver
    ensures r.heap[f].result == w.heap[f].result && r.heap[f].errorObservers == w.heap[f].errorObservers
    ensures forall g :: 0 <= g < |w.heap| && g != f ==> r.heap[g] == w.heap[g]
    ensures w.log <= r.log && w.queue <= r.queue
  {
    var fs := w.heap[f];
    match fs.result
    case Some(Value(v)) => Apply(w, FireValue(o, v))
    case Some(Error(_)) => w
    case None => w.(heap := w.heap[f := fs.(valueObservers := fs.valueObservers + [o])])
  }

  /** The unit of work `onError` dispatches. */
  function RegisterErrorTask<V, E>(w: World<V, E>, f: FutureId, o: ErrorObserver): (r: World<V, E>)
    requires Closed(w) && f < |w.heap| && ErrorObserverClosed(o, |w.heap|)
    ensures Closed(r) && |r.heap| == |w.heap| && r.nextObserver == w.nextObserver
    ensures r.heap[f].result == w.heap[f].result && r.heap[f].valueObservers == w.heap[f].valueObservers
    ensures forall g :: 0 <= g < |w.heap| && g != f ==> r.heap[g] == w.heap[g]
    ensures w.log <= r.log && w.queue <= r.queue
  {
    var fs := w.heap[f];
    match fs.result
    case Some(Error(e)) => Apply(w, FireError(o, e))
    case Some(Value(_)) => w
    case None => w.(heap := w.heap[f := fs.(errorObservers := fs.errorObservers + [o])])
  }

  /** The unit of work `resolve(value:)` / `resolve(error:)` dispatches:
      record the outcome (unconditionally), run the matching list, clear both. */
  function ResolveTask<V, E>(w: World<V, E>, f: FutureId, o: Outcome<V, E>): (r: World<V, E>)
    requires Closed(w) && f < |w.heap|
    ensures Closed(r) && |r.heap| == |w.heap| && r.nextObserver == w.nextObserver
    ensures r.heap[f].result == Some(o) && |r.heap[f].valueObservers| == 0 && |r.heap[f].errorObservers| == 0
    ensures forall g :: 0 <= g < |w.heap| && g != f ==> r.heap[g] == w.heap[g]
    ensures w.log <= r.log && w.queue <= r.queue
  {
    var settled := w.heap[f].(result := Some(o));
    var eff := RunStoredCallbacks(settled);
    RunStoredCallbacksClosed(settled, |w.heap|);
    Apply(w.(heap := w.heap[f := ClearStoredCallbacks(settled)]), eff)
  }

  /** The unit of work `map` dispatches: it subscribes the two forwarders
      through `onValue` and `onError`, each of which dispatches again. */
  function MapSetupTask<V, E>(w: World<V, E>, src: FutureId, dst: FutureId, transform: V -> V): (r: World<V, E>)
    requires Closed(w) && src < |w.heap| && dst < |w.heap|
    ensures Closed(r) && r.heap == w.heap && r.log == w.log && r.nextObserver == w.nextObserver
    ensures w.queue <= r.queue && |r.queue| == |w.queue| + 2
  {
    w.(queue := w.queue + [RegisterValue(src, Forward(dst, transform)), RegisterError(src, PassError(dst))])
  }

  function RunTask<V, E>(w: World<V, E>, t: Task<V, E>): (r: World<V, E>)
    requires Closed(w) && TaskClosed(t, |w.heap|)
    ensures Closed(r) && |r.heap| == |w.heap| && r.nextObserver == w.nextObserver
  {
    match t
    case RegisterValue(f, o) => RegisterValueTask(w, f, o)
    case RegisterError(f, o) => RegisterErrorTask(w, f, o)
    case Resolve(f, o) => ResolveTask(w, f, o)
    case MapSetup(s, d, transform) => MapSetupTask(w, s, d, transform)
  }

  /** The serial queue runs its oldest task; an empty queue stays idle. */
  function Step<V, E>(w: World<V, E>): (r: World<V, E>)
    requires Closed(w)
    ensures Closed(r) && |r.heap| == |w.heap| && r.nextObserver == w.nextObserver
    ensures w.log <= r.log
    ensures forall g :: 0 <= g < |w.heap| && w.heap[g].result.Some? ==> r.heap[g].result.Some?
  {
    if |w.queue| == 0 then w
    else RunTask(w.(queue := w.queue[1..]), w.queue[0])
  }

  // ---------------------------------------------------------------------
  // Public operations: each only dispatches onto the queue

  /** `onValue`: dispatches a registration of a new client callback (identity
      `w.nextObserver`) and returns the same future for chaining. */
  function OnValue<V, E>(w: World<V, E>, f: FutureId): (r: Handle<V, E>)
    requires f < |w.heap|
    ensures r.future == f
    ensures r.world.heap == w.heap && r.world.log == w.log
    ensures r.world.queue == w.queue + [RegisterValue(f, ValueCallback(w.nextObserver))]
    ensures r.world.nextObserver == w.nextObserver + 1
  {
    var n := w.nextObserver;
    Handle(w.(queue := w.queue + [RegisterValue(f, ValueCallback(n))], nextObserver := n + 1), f)
  }

  /** `onError`: symmetric to `OnValue` on the error channel. */
  function OnError<V, E>(w: World<V, E>, f: FutureId): (r: Handle<V, E>)
    requires f < |w.heap|
    ensures r.future == f
    ensures r.world.heap == w.heap && r.world.log == w.log
    ensures r.world.queue == w.queue + [RegisterError(f, ErrorCallback(w.nextObserver))]
    ensures r.world.nextObserver == w.nextObserver + 1
  {
    var n := w.nextObserver;
    Handle(w.(queue := w.queue + [RegisterError(f, ErrorCallback(n))], nextObserver := n + 1), f)
  }

  /** The private `resolve(value:)` / `resolve(error:)`: only dispatches. */
  function ResolveFuture<V, E>(w: World<V, E>, f: FutureId, o: Outcome<V, E>): (r: World<V, E>)
    requires f < |w.heap|
    ensures r.heap == w.heap && r.log == w.log && r.nextObserver == w.nextObserver
    ensures r.queue == w.queue + [Resolve(f, o)]
  {
    w.(queue := w.queue + [Resolve(f, o)])
  }

  /** Allocates a new, unsettled future at the end of the heap. */
  function NewFuture<V, E>(w: World<V, E>): (r: Handle<V, E>)
    ensures r.future == |w.heap| && r.world.heap == w.heap + [Unsettled()]
    ensures r.world.queue == w.queue && r.world.log == w.log && r.world.nextObserver == w.nextObserver
  {
    Handle(w.(heap := w.heap + [Unsettled()]), |w.heap|)
  }

  /** `map`: allocates the derived future synchronously, dispatches the setup
      task and returns the derived future; no existing future changes. */
  function Map<V, E>(w: World<V, E>, src: FutureId, transform: V -> V): (r: Handle<V, E>)
    requires src < |w.heap|
    ensures r.future == |w.heap| && r.world.heap == w.heap + [Unsettled()]
    ensures r.world.log == w.log && r.world.nextObserver == w.nextObserver
    ensures r.world.queue == w.queue + [MapSetup(src, r.future, transform)]
  {
    var h := NewFuture(w);
    Handle(h.world.(queue := h.world.queue + [MapSetup(src, h.future, transform)]), h.future)
  }
}
