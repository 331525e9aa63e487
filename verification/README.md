# iPromise futures, modelled in Dafny

This project models the write-once future and promise of iPromise
(`iPromise/IPromise.swift`), including the serial queue that the library
relies on for ordering.

An `IFuture` holds an optional outcome, `Value` or `Error`. It also keeps two
ordered lists of pending closures, one per channel. None of its operations
does any work immediately: `onValue`, `onError`, the private `resolve`s and the
setup step of `map` each put one unit of work on the main dispatch queue.
`IPromise` owns one future and only delegates to it.

The model makes that queue explicit:

- `Futures.World` is the whole system. It holds a heap of futures indexed by
  `FutureId`, one FIFO queue of `Task`s shared by every future, an event log
  of the client callbacks that ran, and the next unused observer identity.
- Each public operation (`OnValue`, `OnError`, `ResolveFuture`, `Map`,
  `Promises.NewPromise`, `Promises.ResolveValue`, `Promises.ResolveError`)
  only appends to the queue or allocates an unsettled future.
- `Futures.Step` runs the oldest task. An empty queue stays idle.
- Swift closures become first-order observers. A client callback is an
  identity, and its firing is logged as `Delivered(id, outcome)`. The two
  closures that `map` installs become `Forward(dst, transform)` and
  `PassError(dst)`. They call `resolve` on the derived future, so they put a
  `Resolve` task on the queue.
- `Programs.Run` executes any interleaving of client calls and queue steps.
  A callback that calls back into the library is approximated by the client
  making that call after the step that ran the callback (see "Left out" for
  the order this misses).

The model is organised as follows:

- `futures.dfy`: the datatypes, the tasks and `Step`. It also holds reference
  filters over an observer list: the client callback ids and the forwarders,
  each in registration order.
- `invariants.dfy`: the reachable-world invariant `Valid`. It has three parts:
  - every future id is allocated (`Closed`);
  - settled futures have empty lists (`Drained`);
  - every observer identity occurs at most once across the log, the queued
    registrations and the pending lists, and only identities already handed
    out occur (`Accounted`).
- `promises.dfy`: `IPromise`.
- `programs.dfy`: arbitrary client programs, and the at-most-once theorem.
- `properties.dfy`: what one step does for each kind of task.
- `scenarios.dfy`: whole programs. The waiting, late and chained programs
  follow the repository's unit tests. The map programs exercise `map`
  directly, and the double-resolve and lost-callback programs exercise a
  repeated `resolve`.

Where the design intent and the code differ, the model follows the code. Two
cases:

- **Second resolve.** A write-once future would ignore a second resolve.
  The code assigns `self.result` unconditionally (IPromise.swift lines 62 and
  70), so the model overwrites the outcome. Nothing fires again, because the
  first settlement drained both lists. Observers that register afterwards see
  the second outcome. `FutureProperties.SecondResolve` states this for one
  step and `Scenarios.DoubleResolveOverwrites` for a whole program. A callback
  registered between the two settlements on the second one's channel never
  runs. Its registration found the first outcome on the other channel and was
  dropped (lines 47-51, or 30-34 on the value channel), and the second
  settlement (lines 69-73) found both lists empty. So "exactly once" is false for the code once a future is re-settled
  on the other channel. `Scenarios.CallbackLost` proves this.
- **One queue or many.** `syncQueue` is a property of each future, which
  would allow a queue per future. Every future initialises it to the main
  queue (line 23), including the ones `map` creates (line 105), so the model
  has one global queue.

## Model

| member | source | states |
|---|---|---|
| Futures.FireValues | iPromise/IPromise.swift:81-84 | Running a value-observer list with `v` calls every observer once, in list order. The i-th event is the i-th client callback of the list, with `Value(v)`. The i-th task resolves the i-th forwarder's derived future with that forwarder's transform applied to `v`. |
| Futures.FireErrors | iPromise/IPromise.swift:85-88 | Running an error-observer list with `e` calls every observer once, in list order. The i-th event is the i-th client callback, with `Error(e)`. The i-th task resolves the i-th pass-through's derived future with the same `Error(e)`. |
| Futures.RunStoredCallbacks | iPromise/IPromise.swift:76-91 | Requires a settled future, which is the debug assertion at line 78. Only the list of the outcome's channel runs. Every event carries exactly the outcome. Every dispatched task is a resolve on the same channel, and an error is passed on unchanged. The callbacks that ran are exactly that list's client callbacks, in order. |
| Futures.ClearStoredCallbacks | iPromise/IPromise.swift:93-96 | `clearStoredCallbacks` empties both pending lists and keeps the outcome. |
| Futures.RegisterValueTask | iPromise/IPromise.swift:28-38 | The unit of work `onValue` dispatches. It never changes the future's outcome, its error list or any other future, and it only extends the log and the queue. `FutureProperties.UnsettledValueRegistration` and `FutureProperties.LateValueRegistration` state what it does in each case. |
| Futures.RegisterErrorTask | iPromise/IPromise.swift:45-55 | The unit of work `onError` dispatches. It never changes the outcome, the value list or any other future, and it only extends the log and the queue. |
| Futures.ResolveTask | iPromise/IPromise.swift:61-65 | The unit of work either `resolve` dispatches, the error one being lines 69-73. Afterwards the future holds exactly the new outcome with both lists empty. No other future changes, and the log and the queue only grow. |
| Futures.MapSetupTask | iPromise/IPromise.swift:107-117 | The setup unit of work of `map`. It changes no future and logs nothing, and it only dispatches two further units of work behind those already queued. |
| Futures.NewFuture | iPromise/IPromise.swift:105 | `IFuture()`, also used by the promise's initialiser at line 131. It gets an id no existing future uses, and holds no outcome and no observers. The queue, the log and the identities are unchanged. |
| Futures.Step | iPromise/IPromise.swift:98-100 | The serial queue runs its oldest task. Closed worlds stay closed. The heap never shrinks and identities are not consumed. The event log only grows: a callback that ran is never retracted. A settled future stays settled, because the only writes to `result` (lines 62 and 70) store an outcome. |
| Futures.ResolveFuture | iPromise/IPromise.swift:60-74 | The private `resolve(value:)` and `resolve(error:)` only dispatch: they append `Resolve(f, o)` to the queue. The heap, the log and the identities are unchanged. `FutureProperties.ResolveDelivers` and `FutureProperties.ResolveForwards` state what the dispatched work does. |
| Futures.OnValue | iPromise/IPromise.swift:26-41 | `onValue` returns the same future. The heap and the event log are unchanged, so nothing is delivered synchronously. Exactly one registration, under a fresh identity, is appended to the queue. |
| Futures.OnError | iPromise/IPromise.swift:43-58 | The error-channel counterpart of `onValue`: same future returned, no synchronous effect, one fresh registration queued. |
| Futures.Map | iPromise/IPromise.swift:103-120 | `map` allocates a new, unsettled future at once and returns it. It queues exactly one setup task naming the source, the new future and the transform. No existing future and no logged event changes. |
| Promises.NewPromise | iPromise/IPromise.swift:126-132 | `init` creates a fresh, unsettled future that nothing else refers to. The queue, the log and the identities are unchanged. |
| Promises.ResolveValue | iPromise/IPromise.swift:134-136 | `resolve(value:)` only dispatches the settlement `Resolve(future, Value(v))`. The heap and the log are unchanged. |
| Promises.ResolveError | iPromise/IPromise.swift:138-140 | `resolve(error:)` only dispatches `Resolve(future, Error(e))`. The heap and the log are unchanged. |
| FutureProperties.UnsettledValueRegistration | iPromise/IPromise.swift:35-37 | A value registration on an unsettled future appends the observer to the value list and changes nothing else. No callback runs. The error list, the outcome, the other futures and the log stay as they were. |
| FutureProperties.UnsettledErrorRegistration | iPromise/IPromise.swift:52-54 | The error-channel counterpart: the observer is appended to the error list and nothing else changes. |
| FutureProperties.LateValueRegistration | iPromise/IPromise.swift:30-34 | A value registration on a settled future never stores the observer. On a value it fires at once: a client callback logs the value, and a forwarder dispatches the transformed value. On an error it is dropped without effect. |
| FutureProperties.LateErrorRegistration | iPromise/IPromise.swift:47-51 | The error-channel counterpart. On an error the observer fires at once, and a pass-through dispatches the same error. On a value it is dropped. |
| FutureProperties.ResolveDelivers | iPromise/IPromise.swift:60-74 | A resolve task records the outcome. It runs every pending client callback of the matching channel exactly once, in registration order, with the resolved payload, and runs none of the other channel. It leaves both lists empty and no other future changes. |
| FutureProperties.ResolveForwards | iPromise/IPromise.swift:109-116 | When a source settles, each `map`-derived future gets one settlement task, in registration order, behind the tasks already queued. On a value the task carries the transformed value. On an error it carries the same error and the transform is never applied. |
| FutureProperties.SecondResolve | iPromise/IPromise.swift:60-74 | Resolving an already settled future overwrites its outcome, as written. It delivers nothing and dispatches nothing, because settlement already drained both lists. |
| FutureProperties.MapSetupSubscribes | iPromise/IPromise.swift:107-117 | The setup task of `map` subscribes the value forwarder and then the error pass-through to the source. Each goes through its own dispatched registration, and nothing else changes. |
| Invariants.StepShrinks | iPromise/IPromise.swift:60-96 | Running any task never increases how often any observer identity occurs across the log, the queued registrations and the pending lists. Firing moves an identity from a pending list to the log. Clearing drops the rest. |
| Invariants.StepPreservesValid | iPromise/IPromise.swift:60-96 | Running any task keeps the reachable-world invariant: no dangling future ids, settled futures drained, every identity at most once. |
| Invariants.OnValuePreservesValid | iPromise/IPromise.swift:26-41 | `onValue` keeps the invariant. The identity it adds is fresh. |
| Invariants.OnErrorPreservesValid | iPromise/IPromise.swift:43-58 | `onError` keeps the invariant. The identity it adds is fresh. |
| Invariants.ResolveFuturePreservesValid | iPromise/IPromise.swift:60-74 | Dispatching a settlement keeps the invariant, whether or not the future is already settled. |
| Invariants.MapPreservesValid | iPromise/IPromise.swift:103-120 | `map` keeps the invariant. |
| Promises.NewPromisePreservesValid | iPromise/IPromise.swift:130-132 | Creating a promise keeps the invariant. |
| Programs.Perform | iPromise/IPromise.swift:22-23 | Any client call, or one run of the serial queue, on a reachable world gives a reachable world. The calls are a superset of the library's: `Settle` may also resolve a `map`-derived future. No action unsettles a settled future. The log only grows, and identities and futures are never reused. |
| Programs.Run | iPromise/IPromise.swift:22-23 | Any program of client calls interleaved with queue runs ends in a reachable world. Its log extends the initial one, and every future settled at the start is still settled at the end. |
| Programs.AtMostOnce | iPromise/IPromise.swift:93-96 | After any program, every client callback has run at most once. This holds for registrations made before or after settlement, and when a promise is resolved twice. Only callbacks that were registered have run. |
| Scenarios.WaitForOutcome | IPromiseTestHost/UnitTests/IPromiseUnitTests.swift:30-103 | Two callbacks are subscribed and the promise is resolved afterwards. Nothing is received while the registrations run. After the settlement, exactly the callback of the matching channel has run once, with the payload. |
| Scenarios.LateSubscription | IPromiseTestHost/UnitTests/IPromiseUnitTests.swift:108-188 | The promise is resolved before the two subscriptions. The matching callback still runs exactly once, after the calls return, and the other one never runs. The settled future stores no observer. |
| Scenarios.ChainedSubscriptions | IPromiseTestHost/UnitTests/IPromiseUnitTests.swift:233-343 | `onValue` is chained twice and `onError` is chained twice. On a value, the two value callbacks run in call order and no error callback runs. An error is symmetric. |
| Scenarios.MapOfValue | iPromise/IPromise.swift:103-120 | Mapping a promise's future and then resolving the promise with `v` settles the derived future with `transform(v)`. No client callback runs and the queue ends idle. |
| Scenarios.MapOfError | iPromise/IPromise.swift:103-120 | For the same program, mapping a fresh promise's future and then resolving the promise with an error settles the derived future with the very same error. No client callback runs and the queue ends idle. |
| Scenarios.DoubleResolveOverwrites | iPromise/IPromise.swift:60-74 | A promise is resolved twice and then subscribed on both channels. The later subscribers see the second outcome, and only its channel's callback runs. |
| Scenarios.CallbackLost | iPromise/IPromise.swift:47-51 | A promise is resolved with a value, an error callback is registered, and the promise is resolved again with an error. The registration runs while the value is the outcome and is dropped. The error settlement finds no pending observer. The future ends settled with the error and the queue idle, yet the callback has never run. |

## Left out

- Grand Central Dispatch is not modelled: no `dispatch_async`, no threads, no timing. The main queue is the explicit FIFO `World.queue`, and `Step` runs its head.
- Swift closures are not modelled as code. Client callbacks only log their firing. A callback that calls back into the library is approximated by the client making that call as the next action of a program, after the whole step.
- Programs.AtMostOnce: does not cover schedules in which a client callback's own library call is dispatched between the settlements queued by two `map` forwarders of the same list. In Swift such a call is queued while the loop at IPromise.swift:82-84 is still running. In the model it can only come before or after all of that step's forwarded settlements.
- Programs.AtMostOnce: counts only client callbacks. The two observers that `map` registers on its source (lines 109 and 114) carry no identity, so nothing proves they fire at most once. In particular, nothing proves that a derived future is settled by its source at most once. The invariant would allow the same forwarder to be stored twice, although `map` dispatches each setup task only once.
- Programs.Perform: `Settle` may resolve any future, including one derived by `map`. In the library `resolve` is private and only a promise's own future can be resolved. The model therefore allows more programs than the library, which keeps the safety theorems sound.
- The generic result type of `map` (`T2`) is not modelled: all futures share one value type, and the transform is a total `V -> V`.
- The debug `assert` in `runStoredCallbacks` is not a runtime check here. It is the precondition of `Futures.RunStoredCallbacks`, which the resolve task always establishes.
- The unit tests and the ad hoc demo code are not modelled as code. The unit tests only serve as the pattern for the `Scenarios` lemmas. The demo uses timers and printing and contributes no library logic.
- Programs.AtMostOnce: proves that a callback fires at most once, not exactly once. "Exactly once" also needs the future to be settled and the queue to be run to the end, and neither is up to the library. Even then it is false for the code as written: a callback registered before a re-settlement on the other channel never runs (`Scenarios.CallbackLost`).
- Scenarios.MapOfValue: unlike testMapWithValue, it calls `map` before the resolve rather than from a callback, and it reads the derived future's outcome rather than subscribing to it. It proves that a derived future settles with the transformed value only for a program that maps a fresh promise's future and resolves it. For arbitrary programs the model proves the single steps: `FutureProperties.ResolveForwards` (the settlement is queued) and `FutureProperties.ResolveDelivers` (queued settlements take effect). It does not prove a general eventual-settlement theorem.
- Scenarios.MapOfError: proves that the derived future settles with the source's error only for the same program. For arbitrary programs the error pass-through is proved per step. `FutureProperties.ResolveForwards` covers the error case of a settling source. `FutureProperties.LateErrorRegistration` covers a `PassError` registered on a source that is already settled with an error. It does not prove a general eventual-settlement theorem.
- Memory management is not modelled: futures are never freed, and a future that is never settled keeps its pending observers forever, as in the source.
