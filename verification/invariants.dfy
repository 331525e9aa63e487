/** The invariant every reachable world keeps, and its preservation by the
    serial queue's steps and by the public operations.

    Each client callback has one identity. Over the whole world, an identity
    can sit in three places: in a dispatched registration still on the queue,
    in a future's pending list, or in the event log once it has run. A step
    only moves identities from the first two places to the third, or drops
    them. So the multiset of all identities never grows on a step, and every
    registration adds exactly one new identity. That bookkeeping is what makes
    every callback run at most once.
 */
module Invariants {
  import opened Futures

  /** The client-callback identity a dispatched task carries, if any. */
  function TaskIds<V, E>(t: Task<V, E>): seq<ObserverId>
  {
    match t
    case RegisterValue(_, o) => ValueCallbackIds([o])
    case RegisterError(_, o) => ErrorCallbackIds([o])
    case Resolve(_, _) => []
    case MapSetup(_, _, _) => []
  }

  /** The client-callback identities waiting on the queue, in queue order. */
  function QueuedIds<V, E>(q: seq<Task<V, E>>): seq<ObserverId>
  {
    if |q| == 0 then [] else TaskIds(q[0]) + QueuedIds(q[1..])
  }

  /** The client-callback identities in one future's pending lists. */
  function FutureIds<V, E>(fs: Future<V, E>): seq<ObserverId>
  {
    ValueCallbackIds(fs.valueObservers) + ErrorCallbackIds(fs.errorObservers)
  }

  /** The client-callback identities pending on any future, by future id. */
  function PendingIds<V, E>(heap: seq<Future<V, E>>): seq<ObserverId>
  {
    if |heap| == 0 then [] else PendingIds(heap[..|heap| - 1]) + FutureIds(heap[|heap| - 1])
  }

  /** Every client-callback identity in the world, with multiplicity. */
  ghost function ObserverIds<V, E>(w: World<V, E>): multiset<ObserverId>
  {
    multiset(LogIds(w.log)) + multiset(QueuedIds(w.queue)) + multiset(PendingIds(w.heap))
  }

  /** A settled future keeps no pending observers. */
  ghost predicate Drained<V, E>(w: World<V, E>)
  {
    forall f :: 0 <= f < |w.heap| && w.heap[f].result.Some? ==>
      |w.heap[f].valueObservers| == 0 && |w.heap[f].errorObservers| == 0
  }

  /** Each identity handed out occurs at most once; no other identity occurs. */
  ghost predicate Accounted<V, E>(w: World<V, E>)
  {
    forall id: ObserverId :: ObserverIds(w)[id] <= (if id < w.nextObserver then 1 else 0)
  }

  ghost predicate Valid<V, E>(w: World<V, E>)
  {
    Closed(w) && Drained(w) && Accounted(w)
  }

  /** Only identities already handed out appear in the log of a valid world. */
  lemma LoggedIdsIssued<V, E>(w: World<V, E>)
    requires Valid(w)
    ensures forall i :: 0 <= i < |w.log| ==> w.log[i].observer < w.nextObserver
  {
    forall i | 0 <= i < |w.log|
      ensures w.log[i].observer < w.nextObserver
    {
      var id := w.log[i].observer;
      assert LogIds(w.log)[i] == id;
      assert id in multiset(LogIds(w.log));
      assert ObserverIds(w)[id] >= 1;
    }
  }

  // ---------------------------------------------------------------------
  // Sequence bookkeeping

  lemma {:induction false} ValueCallbackIdsAppend<V>(a: seq<ValueObserver<V>>, b: seq<ValueObserver<V>>)
    ensures ValueCallbackIds(a + b) == ValueCallbackIds(a) + ValueCallbackIds(b)
    decreases |a|
  {
    if |a| == 0 {
      assert a + b == b;
    } else {
      assert (a + b)[0] == a[0];
      assert (a + b)[1..] == a[1..] + b;
      ValueCallbackIdsAppend(a[1..], b);
      var head := if a[0].ValueCallback? then [a[0].id] else [];
      assert ValueCallbackIds(a + b) == head + ValueCallbackIds(a[1..] + b);
      assert ValueCallbackIds(a) == head + ValueCallbackIds(a[1..]);
    }
  }

  lemma {:induction false} ErrorCallbackIdsAppend(a: seq<ErrorObserver>, b: seq<ErrorObserver>)
    ensures ErrorCallbackIds(a + b) == ErrorCallbackIds(a) + ErrorCallbackIds(b)
    decreases |a|
  {
    if |a| == 0 {
      assert a + b == b;
    } else {
      assert (a + b)[0] == a[0];
      assert (a + b)[1..] == a[1..] + b;
      ErrorCallbackIdsAppend(a[1..], b);
      var head := if a[0].ErrorCallback? then [a[0].id] else [];
      assert ErrorCallbackIds(a + b) == head + ErrorCallbackIds(a[1..] + b);
      assert ErrorCallbackIds(a) == head + ErrorCallbackIds(a[1..]);
    }
  }

  lemma {:induction false} QueuedIdsAppend<V, E>(a: seq<Task<V, E>>, b: seq<Task<V, E>>)
    ensures QueuedIds(a + b) == QueuedIds(a) + QueuedIds(b)
    decreases |a|
  {
    if |a| == 0 {
      assert a + b == b;
    } else {
      assert (a + b)[1..] == a[1..] + b;
      QueuedIdsAppend(a[1..], b);
    }
  }

  /** Resolve tasks carry no callback identity. */
  lemma {:induction false} QueuedIdsOfResolves<V, E>(q: seq<Task<V, E>>)
    requires forall i :: 0 <= i < |q| ==> q[i].Resolve?
    ensures QueuedIds(q) == []
    decreases |q|
  {
    if |q| > 0 {
      QueuedIdsOfResolves(q[1..]);
    }
  }

  lemma LogIdsAppend<V, E>(a: seq<Event<V, E>>, b: seq<Event<V, E>>)
    ensures LogIds(a + b) == LogIds(a) + LogIds(b)
  {
  }

  /** Replacing one future swaps its identities for the new future's ones. */
  lemma {:induction false} PendingIdsUpdate<V, E>(heap: seq<Future<V, E>>, f: nat, s: Future<V, E>, id: ObserverId)
    requires f < |heap|
    ensures multiset(PendingIds(heap[f := s]))[id] + multiset(FutureIds(heap[f]))[id]
         == multiset(PendingIds(heap))[id] + multiset(FutureIds(s))[id]
    decreases |heap|
  {
    var n := |heap| - 1;
    var h' := heap[f := s];
    assert PendingIds(heap) == PendingIds(heap[..n]) + FutureIds(heap[n]);
    if f == n {
      assert h'[..n] == heap[..n];
      assert PendingIds(h') == PendingIds(heap[..n]) + FutureIds(s);
    } else {
      var front := heap[..n][f := s];
      assert h'[..n] == front;
      assert PendingIds(h') == PendingIds(front) + FutureIds(heap[n]);
      PendingIdsUpdate(heap[..n], f, s, id);
    }
  }

  /** Allocating a future with empty lists adds no identity. */
  lemma PendingIdsAlloc<V, E>(heap: seq<Future<V, E>>)
    ensures PendingIds(heap + [Unsettled()]) == PendingIds(heap)
  {
    assert (heap + [Unsettled()])[..|heap|] == heap;
  }

  // ---------------------------------------------------------------------
  // Steps never add an identity

  lemma ResolveShrinks<V, E>(w: World<V, E>, f: FutureId, o: Outcome<V, E>, id: ObserverId)
    requires Closed(w) && f < |w.heap|
    ensures ObserverIds(ResolveTask(w, f, o))[id] <= ObserverIds(w)[id]
  {
    var fs := w.heap[f];
    var settled := fs.(result := Some(o));
    var eff := RunStoredCallbacks(settled);
    var cleared := ClearStoredCallbacks(settled);
    var r := ResolveTask(w, f, o);
    LogIdsAppend(w.log, eff.events);
    QueuedIdsAppend(w.queue, eff.tasks);
    QueuedIdsOfResolves(eff.tasks);
    PendingIdsUpdate(w.heap, f, cleared, id);
    assert FutureIds(cleared) == [];
    assert multiset(LogIds(eff.events))[id] <= multiset(FutureIds(fs))[id];
  }

  /** A single observer fired by a late registration logs exactly the
      identity the registration carried, and queues no identity. */
  lemma FireValueIds<V, E>(o: ValueObserver<V>, v: V)
    ensures LogIds(FireValue<V, E>(o, v).events) == ValueCallbackIds([o])
    ensures QueuedIds(FireValue<V, E>(o, v).tasks) == []
  {
    var eff := FireValue<V, E>(o, v);
    if o.Forward? {
      assert QueuedIds(eff.tasks) == TaskIds(eff.tasks[0]) + QueuedIds(eff.tasks[1..]);
    }
  }

  lemma FireErrorIds<V, E>(o: ErrorObserver, e: E)
    ensures LogIds(FireError<V, E>(o, e).events) == ErrorCallbackIds([o])
    ensures QueuedIds(FireError<V, E>(o, e).tasks) == []
  {
    var eff := FireError<V, E>(o, e);
    if o.PassError? {
      assert QueuedIds(eff.tasks) == TaskIds(eff.tasks[0]) + QueuedIds(eff.tasks[1..]);
    }
  }

  /** Firing effects move identities into the log and queue nothing new. */
  lemma ApplyIds<V, E>(w: World<V, E>, eff: Effects<V, E>, carried: seq<ObserverId>, id: ObserverId)
    requires LogIds(eff.events) == carried && QueuedIds(eff.tasks) == []
    ensures ObserverIds(Apply(w, eff))[id] == ObserverIds(w)[id] + multiset(carried)[id]
  {
    LogIdsAppend(w.log, eff.events);
    QueuedIdsAppend(w.queue, eff.tasks);
  }

  /** Storing a future whose pending identities are the old ones plus
      `carried` adds exactly `carried` to the world. */
  lemma StoreIds<V, E>(w: World<V, E>, f: FutureId, fs: Future<V, E>, carried: seq<ObserverId>, id: ObserverId)
    requires f < |w.heap|
    requires multiset(FutureIds(fs)) == multiset(FutureIds(w.heap[f])) + multiset(carried)
    ensures ObserverIds(w.(heap := w.heap[f := fs]))[id] == ObserverIds(w)[id] + multiset(carried)[id]
  {
    PendingIdsUpdate(w.heap, f, fs, id);
  }

  lemma RegisterValueShrinks<V, E>(w: World<V, E>, f: FutureId, o: ValueObserver<V>, id: ObserverId)
    requires Closed(w) && f < |w.heap| && ValueObserverClosed(o, |w.heap|)
    ensures ObserverIds(RegisterValueTask(w, f, o))[id] <= ObserverIds(w)[id] + multiset(ValueCallbackIds([o]))[id]
  {
    var fs := w.heap[f];
    var carried := ValueCallbackIds([o]);
    match fs.result
    case Some(Value(v)) =>
      assert RegisterValueTask(w, f, o) == Apply(w, FireValue<V, E>(o, v));
      FireValueIds<V, E>(o, v);
      ApplyIds(w, FireValue<V, E>(o, v), carried, id);
    case Some(Error(_)) =>
      assert RegisterValueTask(w, f, o) == w;
    case None =>
      var fs' := fs.(valueObservers := fs.valueObservers + [o]);
      assert RegisterValueTask(w, f, o) == w.(heap := w.heap[f := fs']);
      ValueCallbackIdsAppend(fs.valueObservers, [o]);
      assert FutureIds(fs') == ValueCallbackIds(fs.valueObservers) + carried + ErrorCallbackIds(fs.errorObservers);
      StoreIds(w, f, fs', carried, id);
  }

  lemma RegisterErrorShrinks<V, E>(w: World<V, E>, f: FutureId, o: ErrorObserver, id: ObserverId)
    requires Closed(w) && f < |w.heap| && ErrorObserverClosed(o, |w.heap|)
    ensures ObserverIds(RegisterErrorTask(w, f, o))[id] <= ObserverIds(w)[id] + multiset(ErrorCallbackIds([o]))[id]
  {
    var fs := w.heap[f];
    var carried := ErrorCallbackIds([o]);
    match fs.result
    case Some(Error(e)) =>
      assert RegisterErrorTask(w, f, o) == Apply(w, FireError<V, E>(o, e));
      FireErrorIds<V, E>(o, e);
      ApplyIds(w, FireError<V, E>(o, e), carried, id);
    case Some(Value(_)) =>
      assert RegisterErrorTask(w, f, o) == w;
    case None =>
      var fs' := fs.(errorObservers := fs.errorObservers + [o]);
      assert RegisterErrorTask(w, f, o) == w.(heap := w.heap[f := fs']);
      ErrorCallbackIdsAppend(fs.errorObservers, [o]);
      assert FutureIds(fs') == ValueCallbackIds(fs.valueObservers) + (ErrorCallbackIds(fs.errorObservers) + carried);
      StoreIds(w, f, fs', carried, id);
  }

  lemma MapSetupKeeps<V, E>(w: World<V, E>, s: FutureId, d: FutureId, tf: V -> V, id: ObserverId)
    requires Closed(w) && s < |w.heap| && d < |w.heap|
    ensures ObserverIds(MapSetupTask(w, s, d, tf))[id] == ObserverIds(w)[id]
  {
    var first: Task<V, E> := RegisterValue(s, Forward(d, tf));
    var second: Task<V, E> := RegisterError(s, PassError(d));
    assert TaskIds(first) == [] && TaskIds(second) == [];
    var w1 := w.(queue := w.queue + [first]);
    DispatchKeepsIds(w, first, id);
    DispatchKeepsIds(w1, second, id);
    assert MapSetupTask(w, s, d, tf) == w1.(queue := w1.queue + [second]);
  }

  /** Running a task can only add to the world the identity it carried. */
  lemma RunTaskShrinks<V, E>(w: World<V, E>, t: Task<V, E>, id: ObserverId)
    requires Closed(w) && TaskClosed(t, |w.heap|)
    ensures ObserverIds(RunTask(w, t))[id] <= ObserverIds(w)[id] + multiset(TaskIds(t))[id]
  {
    match t
    case RegisterValue(f, o) => RegisterValueShrinks(w, f, o, id);
    case RegisterError(f, o) => RegisterErrorShrinks(w, f, o, id);
    case Resolve(f, o) => ResolveShrinks(w, f, o, id);
    case MapSetup(s, d, tf) => MapSetupKeeps(w, s, d, tf, id);
  }

  /** Running the head task never creates a callback identity: it only moves
      identities from the queue and pending lists into the log, or drops them. */
  lemma StepShrinks<V, E>(w: World<V, E>, id: ObserverId)
    requires Closed(w)
    ensures ObserverIds(Step(w))[id] <= ObserverIds(w)[id]
  {
    if |w.queue| > 0 {
      var t := w.queue[0];
      var w1 := w.(queue := w.queue[1..]);
      assert QueuedIds(w.queue) == TaskIds(t) + QueuedIds(w1.queue);
      RunTaskShrinks(w1, t, id);
    }
  }

  /** Running the head task keeps settled futures drained. */
  lemma StepKeepsDrained<V, E>(w: World<V, E>)
    requires Closed(w) && Drained(w)
    ensures Drained(Step(w))
  {
  }

  /** The serial queue's step preserves the whole invariant. */
  lemma StepPreservesValid<V, E>(w: World<V, E>)
    requires Valid(w)
    ensures Valid(Step(w))
  {
    forall id: ObserverId {
      StepShrinks(w, id);
    }
    StepKeepsDrained(w);
  }

  // ---------------------------------------------------------------------
  // Public operations keep the invariant

  /** Dispatching a task that carries no callback identity changes no count. */
  lemma DispatchKeepsIds<V, E>(w: World<V, E>, t: Task<V, E>, id: ObserverId)
    requires TaskIds(t) == []
    ensures ObserverIds(w.(queue := w.queue + [t]))[id] == ObserverIds(w)[id]
  {
    QueuedIdsAppend(w.queue, [t]);
    assert QueuedIds([t]) == TaskIds(t) + QueuedIds([t][1..]);
  }

  /** Dispatching a registration adds exactly the fresh identity it carries;
      the identity counter plays no part in the count. */
  lemma RegistrationIds<V, E>(w: World<V, E>, t: Task<V, E>, n: ObserverId, next: ObserverId, id: ObserverId)
    requires TaskIds(t) == [n]
    ensures ObserverIds(w.(queue := w.queue + [t], nextObserver := next))[id] == ObserverIds(w)[id] + (if id == n then 1 else 0)
  {
    QueuedIdsAppend(w.queue, [t]);
    assert QueuedIds([t]) == TaskIds(t) + QueuedIds([t][1..]);
  }

  /** Appending a task that names only allocated futures keeps the world closed. */
  lemma DispatchKeepsShape<V, E>(w: World<V, E>, t: Task<V, E>, next: ObserverId)
    requires Closed(w) && Drained(w) && TaskClosed(t, |w.heap|)
    ensures Closed(w.(queue := w.queue + [t], nextObserver := next))
    ensures Drained(w.(queue := w.queue + [t], nextObserver := next))
  {
  }

  /** A registration dispatched under the next identity keeps the count. */
  lemma RegistrationKeepsAccounted<V, E>(w: World<V, E>, t: Task<V, E>, r: World<V, E>)
    requires Accounted(w) && TaskIds(t) == [w.nextObserver]
    requires r == w.(queue := w.queue + [t], nextObserver := w.nextObserver + 1)
    ensures Accounted(r)
  {
    forall id: ObserverId
      ensures ObserverIds(r)[id] <= (if id < r.nextObserver then 1 else 0)
    {
      RegistrationIds(w, t, w.nextObserver, w.nextObserver + 1, id);
      assert ObserverIds(w)[id] <= (if id < w.nextObserver then 1 else 0);
    }
  }

  lemma OnValuePreservesValid<V, E>(w: World<V, E>, f: FutureId)
    requires Valid(w) && f < |w.heap|
    ensures Valid(OnValue(w, f).world)
  {
    var t: Task<V, E> := RegisterValue(f, ValueCallback(w.nextObserver));
    var r := w.(queue := w.queue + [t], nextObserver := w.nextObserver + 1);
    assert OnValue(w, f).world == r;
    assert TaskIds(t) == [w.nextObserver];
    DispatchKeepsShape(w, t, w.nextObserver + 1);
    RegistrationKeepsAccounted(w, t, r);
    assert Valid(r);
  }

  lemma OnErrorPreservesValid<V, E>(w: World<V, E>, f: FutureId)
    requires Valid(w) && f < |w.heap|
    ensures Valid(OnError(w, f).world)
  {
    var t: Task<V, E> := RegisterError(f, ErrorCallback(w.nextObserver));
    var r := w.(queue := w.queue + [t], nextObserver := w.nextObserver + 1);
    assert OnError(w, f).world == r;
    assert TaskIds(t) == [w.nextObserver];
    DispatchKeepsShape(w, t, w.nextObserver + 1);
    RegistrationKeepsAccounted(w, t, r);
    assert Valid(r);
  }

  lemma ResolveFuturePreservesValid<V, E>(w: World<V, E>, f: FutureId, o: Outcome<V, E>)
    requires Valid(w) && f < |w.heap|
    ensures Valid(ResolveFuture(w, f, o))
  {
    forall id: ObserverId {
      DispatchKeepsIds(w, Resolve(f, o), id);
    }
  }

  lemma NewFutureKeepsClosed<V, E>(w: World<V, E>)
    requires Closed(w)
    ensures Closed(NewFuture(w).world)
  {
    var r := NewFuture(w).world;
    var n := |w.heap|;
    forall f | 0 <= f < |r.heap|
      ensures FutureClosed(r.heap[f], n + 1)
    {
      if f < n {
        assert r.heap[f] == w.heap[f];
        assert FutureClosed(w.heap[f], n);
      }
    }
    forall i | 0 <= i < |r.queue|
      ensures TaskClosed(r.queue[i], n + 1)
    {
      assert TaskClosed(w.queue[i], n);
    }
  }

  lemma NewFutureKeepsDrained<V, E>(w: World<V, E>)
    requires Drained(w)
    ensures Drained(NewFuture(w).world)
  {
    var r := NewFuture(w).world;
    forall f | 0 <= f < |r.heap| && r.heap[f].result.Some?
      ensures |r.heap[f].valueObservers| == 0 && |r.heap[f].errorObservers| == 0
    {
      assert f < |w.heap| && r.heap[f] == w.heap[f];
    }
  }

  lemma NewFuturePreservesValid<V, E>(w: World<V, E>)
    requires Valid(w)
    ensures Valid(NewFuture(w).world)
  {
    NewFutureKeepsClosed(w);
    NewFutureKeepsDrained(w);
    PendingIdsAlloc(w.heap);
    assert forall id: ObserverId :: ObserverIds(NewFuture(w).world)[id] == ObserverIds(w)[id];
  }

  lemma MapPreservesValid<V, E>(w: World<V, E>, src: FutureId, transform: V -> V)
    requires Valid(w) && src < |w.heap|
    ensures Valid(Map(w, src, transform).world)
  {
    var h := NewFuture(w);
    NewFuturePreservesValid(w);
    forall id: ObserverId {
      DispatchKeepsIds(h.world, MapSetup(src, h.future, transform), id);
    }
  }
}
