# ShallowPromises in Dafny

A model of the core of ShallowPromises, a small Swift promise library. A
`Promise<U>` is completed once, with a result or an error. Until then it keeps
the closures registered on it in a `Futures<U>` registry. Completing it drains
that registry: every closure of the matching channel runs in registration
order, then every `finally` closure. A closure runs inline, or is submitted to
its own queue, or else to the queue given to the completing call. `then` chains
promises, and `cancel` cancels the upstream `littlePromise` chain before
rejecting the promise itself.

The project has four modules and one module of scenarios:

- `Base` (Base.dfy): optional values, queues known by identity, callback ids and
  the two kinds of error (a thrown error, or `PromiseFailure.cancelled`).
- `Registry` (Futures.dfy): `Futures` as a class over three sequences. Its
  draining methods return, in order, the dispatches that the Swift code runs or
  submits. The specification functions `OnFulfill` and `OnComplete` give that
  order as a value.
- `Promises` (Promise.dfy): `Promise` as a class with `result`, `error`,
  `futures` and `littlePromise` fields. Each method models the locked step of the
  Swift method and returns the dispatches that the Swift method would run
  afterwards. The pure state machine (`Settle`, `Replay`) states first-writer-wins.
- `Runtime` (Runtime.dfy): a `World` that owns every promise and runs
  dispatches the way the nested Swift calls do. A user closure that runs is
  appended to `trace`. A dispatch given to a queue is appended to `backlog`,
  where `RunSubmitted` runs it when that queue gets to it. The forwarding
  closures of `then` (apply `next`, forward the value, forward the error) call
  back into the promises.
- `Scenarios` (Scenarios.dfy): the library's own unit tests, written as methods
  on a `World` whose contracts state the exact trace each test expects, and a
  few further runs of `then` whose contracts state the drain or the final
  state of a promise.

## Model

| member | source | states |
|---|---|---|
| Registry.DeliveredAt | Sources/ShallowPromises/Futures.swift:36-42 | the i-th dispatch of a channel is the i-th registered closure applied to the argument, on its own queue if it has one, else on the caller's |
| Registry.DeliveredLength | Sources/ShallowPromises/Futures.swift:37-42 | a channel yields exactly one dispatch per registered closure |
| Registry.FinalizedAt | Sources/ShallowPromises/Futures.swift:46-53 | the i-th finally dispatch is the i-th finally closure, on its own queue if it has one, else on the caller's |
| Registry.FinalizedLength | Sources/ShallowPromises/Futures.swift:47-52 | exactly one finally dispatch per finally closure |
| Registry.FulfillOrder | Sources/ShallowPromises/Futures.swift:28-53 | fulfilling runs every success closure once with the result, in order, and then every finally closure once; no error closure runs |
| Registry.CompleteOrder | Sources/ShallowPromises/Futures.swift:32-53 | completing runs every error closure once with the error, in order, and then every finally closure once; no success closure runs |
| Registry.Futures.constructor | Sources/ShallowPromises/Futures.swift:12-14 | a new registry holds no closures |
| Registry.Futures.AppendSuccess | Sources/ShallowPromises/Futures.swift:16-18 | the closure and its queue go at the end of the success list; the other lists are unchanged |
| Registry.Futures.AppendError | Sources/ShallowPromises/Futures.swift:20-22 | the closure and its queue go at the end of the error list; the other lists are unchanged |
| Registry.Futures.AppendFinally | Sources/ShallowPromises/Futures.swift:24-26 | the closure and its queue go at the end of the finally list; the other lists are unchanged |
| Registry.Futures.Fulfill | Sources/ShallowPromises/Futures.swift:28-30 | the dispatches are exactly those of `OnFulfill`, whose order `FulfillOrder` states |
| Registry.Futures.Complete | Sources/ShallowPromises/Futures.swift:32-34 | the dispatches are exactly those of `OnComplete`, whose order `CompleteOrder` states |
| Registry.Futures.CompleteFutures | Sources/ShallowPromises/Futures.swift:36-44 | the loop over one channel, followed by `finalize`, yields that channel's deliveries and then the finally dispatches |
| Registry.Futures.Finalize | Sources/ShallowPromises/Futures.swift:46-53 | the loop over the finally list yields one dispatch per closure, in order |
| Promises.CompletedIgnoresCalls | Sources/ShallowPromises/Promise.swift:39-50 | once completed, a promise keeps its state through any later completing calls, and none of them drains the registry |
| Promises.FirstWriterWins | Sources/ShallowPromises/Promise.swift:39-50 | after any non-empty sequence of completing calls on a pending promise, the state is the one written by the first call |
| Promises.DrainedOnce | Sources/ShallowPromises/Promise.swift:39-62 | over any sequence of completing calls, the registry is handed over by exactly the first call, and only if the promise was pending |
| Promises.Promise.constructor | Sources/ShallowPromises/Promise.swift:27-32 | a new promise is pending, has the given upstream, and owns a fresh registry holding the optional success closure on the given queue |
| Promises.Promise.Settled | Sources/ShallowPromises/Promise.swift:34-37 | the promise has exactly the given result and error, no upstream, and a fresh empty registry; given one of the two (its only use, in `then` on a rejected promise), it is completed, so a completing call never drains that registry; given neither, as the `default` branch of `then` would, it is a pending promise |
| Promises.Promise.SetResult | Sources/ShallowPromises/Promise.swift:39-50 | on a pending promise, stores the outcome and hands over the registry, dropping it; on a completed one, changes nothing and hands over nothing |
| Promises.Promise.Fulfill | Sources/ShallowPromises/Promise.swift:52-56 | the new state is the first-writer-wins outcome of the call; the dispatches are the drained registry's `OnFulfill` if the promise was pending, none otherwise |
| Promises.Promise.Complete | Sources/ShallowPromises/Promise.swift:58-62 | the error counterpart of `Fulfill`, with `OnComplete` |
| Promises.Promise.GetResultOrRegisterThen | Sources/ShallowPromises/Promise.swift:64-74 | a fulfilled promise reports its result and a rejected one its error, with the registry untouched; a pending one registers the chaining closures and reports the new child |
| Promises.Promise.RegisterNext | Sources/ShallowPromises/Promise.swift:76-92 | the child is fresh and pending with this promise as upstream; the registry gains one apply-`next` success closure and one forward-error closure for that child, both on the given queue |
| Promises.Promise.Then | Sources/ShallowPromises/Promise.swift:94-105 | fulfilled: returns `next(result)`; rejected: returns a fresh promise rejected with the same error and with no upstream; pending: returns the registered child |
| Promises.Promise.OnSuccess | Sources/ShallowPromises/Promise.swift:107-123 | with a result, hands the closure back to run with it and leaves the registry alone; without one, appends the closure to the registry if there is one |
| Promises.Promise.OnError | Sources/ShallowPromises/Promise.swift:125-141 | with an error, hands the closure back to run with it; without one, appends the closure to the error list if there is a registry |
| Promises.Promise.Finally | Sources/ShallowPromises/Promise.swift:143-158 | a completed promise, either way, hands the closure back; a pending one appends it to the finally list |
| Promises.Promise.SetLittlePromise | Sources/ShallowPromises/Promise.swift:19-25 | the upstream is replaced, and it is to be cancelled exactly when this promise holds an error |
| Runtime.CompleteDrainsIn | Sources/ShallowPromises/Futures.swift:32-53 | completing with an error hands over only dispatches of that error and finally dispatches, all naming promises of the world |
| Runtime.World.Upstream | Sources/ShallowPromises/Promise.swift:160-163 | the promises `cancel` reaches through `littlePromise`, transitively, are all strictly older than the one cancelled |
| Runtime.World.RunUser | Sources/ShallowPromises/Futures.swift:39-41 | running a user closure inline records exactly that closure with its argument and queue in the trace |
| Runtime.World.SettleWithValue | Sources/ShallowPromises/Promise.swift:52-56 | settles by first-writer-wins and hands over `OnFulfill` of the old registry exactly when the promise was pending; no completed promise changes |
| Runtime.World.SettleWithError | Sources/ShallowPromises/Promise.swift:58-62 | the same for an error: only pending promises become rejected with that error |
| Runtime.World.RunApplyNext | Sources/ShallowPromises/Promise.swift:78-86 | applying `next` changes no promise's state; if the promise it returns is already fulfilled or rejected, one forwarding dispatch of that outcome to the child follows; if it is pending, the forwards are registered on it |
| Runtime.World.RunForwardValue | Sources/ShallowPromises/Promise.swift:80-82 | forwarding a value settles the child by first-writer-wins; it hands over the child's drained registry if the child was pending, which leaves fewer promises pending, and nothing otherwise |
| Runtime.World.RunForwardError | Sources/ShallowPromises/Promise.swift:83-89 | the error counterpart: only pending promises become rejected with that error, and everything handed over delivers that error or is a finally closure |
| Runtime.World.Invoke | Sources/ShallowPromises/Promise.swift:78-89 | running one dispatch inline: a user closure only extends the trace; forwarding a value or an error settles the child by first-writer-wins and hands back the child's drained registry exactly when the child was pending; applying `next` changes no state and hands back one forward of the outcome of the promise `next` returned when that promise is completed, and when it is pending hands back nothing and appends a forward-value and a forward-error closure for the child to its registry; each run completes a pending promise or hands back less work than it took |
| Runtime.World.Submit | Sources/ShallowPromises/Futures.swift:39-41 | a dispatch given to a queue is appended to the backlog and changes nothing else |
| Runtime.World.Step | Sources/ShallowPromises/Futures.swift:37-42 | a dispatch with a queue is appended to the backlog and nothing else changes; one without runs inline, what it hands back goes before the rest of the work, and an inline error forward settles its child with the error; the remaining work is strictly smaller in the termination measure |
| Runtime.World.Execute | Sources/ShallowPromises/Futures.swift:36-53 | running handed-over dispatches never moves a completed promise; for a completion with an error, every inline error forward among them has settled its child with that error; when they are all user closures, the trace gains exactly the inline ones in order and the backlog the queued ones in order |
| Runtime.World.Deliver | Sources/ShallowPromises/Promise.swift:117-121 | a closure handed back with no queue runs at once; one with a queue goes to the backlog |
| Runtime.World.OnSuccess | Sources/ShallowPromises/Promise.swift:107-123 | on a fulfilled promise the closure runs with the result (or is queued); otherwise nothing runs, and the closure is appended to the success list when the promise still has a registry and dropped when it has none (a promise rejected by `complete`) |
| Runtime.World.OnError | Sources/ShallowPromises/Promise.swift:125-141 | on a rejected promise the closure runs with the error (or is queued); otherwise nothing runs, and the closure is appended to the error list when the promise still has a registry and dropped when it has none (a fulfilled promise) |
| Runtime.World.Finally | Sources/ShallowPromises/Promise.swift:143-158 | on a completed promise the closure runs (or is queued); on a pending one it is appended to the finally list |
| Runtime.World.Then | Sources/ShallowPromises/Promise.swift:94-105 | no state changes and nothing runs; fulfilled: the result is `next(value)`; rejected: a fresh promise rejected with the same error; pending: a fresh pending child, registered as described by `RegisterNext` |
| Runtime.World.Cancel | Sources/ShallowPromises/Promise.swift:160-163 | the whole upstream chain and the promise itself are cancelled (each pending one is rejected with `Cancelled`), and no promise changes except by being rejected with `Cancelled`, which a forward-error closure of `then` in a drain can do to a promise outside the chain; when only user closures are drained, the trace gains them upstream first |
| Runtime.World.CancelUpstream | Sources/ShallowPromises/Promise.swift:161 | every promise of the upstream chain goes through a cancelling completion, and no promise changes except by being rejected with `Cancelled`; when the chain drains only user closures, nothing outside the chain changes and the trace gains those closures in order |
| Runtime.World.RunSubmitted | Sources/ShallowPromises/Futures.swift:39-40 | a queue running one submitted dispatch removes it from the backlog; a user closure extends the trace by its event and changes nothing else; a forward of a value or an error settles its child with what it carries; applying `next` does what `RunNested` states |
| Runtime.World.RunNested | Sources/ShallowPromises/Promise.swift:78-89 | a forwarding closure, with what it hands back run nested inside it, settles its child by first-writer-wins with the value or error it carries; applying `next` settles the child the same way with the outcome of the promise `next` returned when that promise is completed, and when it is pending changes no state and appends the two forwards for the child to its registry |
| Runtime.World.SetLittlePromise | Sources/ShallowPromises/Promise.swift:19-25 | the link is replaced; when the promise is already rejected, the new upstream chain is cancelled; otherwise nothing else changes |
| Runtime.World.NewPromise | Sources/ShallowPromises/Promise.swift:27-32 | a fresh pending promise joins the world, with the given upstream and its optional success closure; the initialiser's assignment cancels nothing |
| Runtime.World.Fulfill | Sources/ShallowPromises/Promise.swift:52-56 | first-writer-wins; a second call changes nothing at all; the first call's drained user closures run in registration order, or are queued |
| Runtime.World.Complete | Sources/ShallowPromises/Promise.swift:58-62 | the error counterpart of `Fulfill`; only pending promises become rejected with that error, and every inline error forward drained from the promise settles its child with that error |
| Scenarios.FulfillTwice | Tests/ShallowPromisesTests/ShallowPromisesTests.swift:6-16 | after a second fulfil, `onSuccess` sees the first value, and `finally` runs once |
| Scenarios.CancelledUpstream | Tests/ShallowPromisesTests/ShallowPromisesTests.swift:18-33 | cancelling the upstream of the cancelling tests runs its error closure with `Cancelled` and then its finally closure, inline |
| Scenarios.CancelLittlePromise | Tests/ShallowPromisesTests/ShallowPromisesTests.swift:18-33 | cancelling a promise made with an upstream runs the upstream's error and finally closures, and never its success closure |
| Scenarios.CancelledLittlePromise | Tests/ShallowPromisesTests/ShallowPromisesTests.swift:35-49 | setting the upstream of an already rejected promise cancels that upstream |
| Scenarios.FinallyAfterFulfil | Tests/ShallowPromisesTests/ShallowPromisesTests.swift:52-60 | `finally` on a fulfilled promise runs its closure at once, whatever queue the fulfilment named |
| Scenarios.InitDrain | Tests/ShallowPromisesTests/ShallowPromisesTests.swift:62-70 | fulfilling a promise made with a success closure on a queue submits that closure to its queue and runs nothing inline |
| Scenarios.InitCompletion | Tests/ShallowPromisesTests/ShallowPromisesTests.swift:62-70 | the initialiser's success closure runs with the value once its queue runs it |
| Scenarios.ThenFulfilled | Tests/ShallowPromisesTests/ThenTests.swift:13-28 | `then` on a fulfilled promise returns the promise its closure makes, whose `onSuccess` runs with that promise's value |
| Scenarios.ThenErrorFulfilled | Tests/ShallowPromisesTests/ThenTests.swift:52-73 | `then` on a rejected promise never calls its closure; the promise it returns runs `onError` with the original error and then `finally` |
| Scenarios.ThenDrain | Tests/ShallowPromisesTests/ThenTests.swift:30-50 | fulfilling the pending first promise hands over its user closure and then the apply-`next` closure of `then` |
| Scenarios.SecondDrain | Tests/ShallowPromisesTests/ThenTests.swift:30-50 | the forwarded value reaches the user closure registered on the chained promise |
| Scenarios.ThenPending | Tests/ShallowPromisesTests/ThenTests.swift:30-50 | fulfilling the first promise of a pending `then` chain runs its closure, then the chained promise's closure with the value of the promise `next` returned, and fulfils the chained promise with it |
| Scenarios.RejectDrain | Sources/ShallowPromises/Promise.swift:87-89 | completing a promise that carries only the closures of one `then` hands over exactly its forward-error closure, inline |
| Scenarios.ThenRejected | Sources/ShallowPromises/Promise.swift:76-92 | completing a pending promise that `then` was called on rejects the promise `then` returned with the same error |

## Left out

- Locking: every `syncQueue.sync` block is one atomic step of the model, and the model has no concurrency.
- Scheduling: `RunSubmitted` lets a queue run any submitted dispatch. The FIFO order of a serial `DispatchQueue` and the main run loop are not modelled.
- Closures: a user closure is a callback id, and running it is an event in the trace. User closures have no side effects. The forwarding closures of `then` are the datatype constructors `ApplyNext`, `ForwardValue` and `ForwardError`.
- `next` in `then` is a total function from values to existing promises. A closure that allocates promises, or that throws, is not modelled.
- A single payload type `T` per world: `then` maps `Promise<T>` to `Promise<T>` rather than `Promise<U>` to `Promise<V>`.
- The `Any` result and the casts of `then`: `GetResultOrRegisterThen` returns the tagged union `Lookup`, so the `default` branch that returns a never-completing promise is unreachable and not modelled.
- `Cancellable` (Sources/ShallowPromises/Cancellable.swift): the upstream is a `Promise?` directly, so `cancel` is only modelled for promises.
- Errors: a Swift `Error` is `Thrown(code)`, or `Cancelled` for `PromiseFailure.cancelled`.
- Sources/ShallowPromises/ConcretePromise.swift and the proxy tests are not part of this model.
- Runtime.World.SetLittlePromise: requires the new upstream to be older than the promise, where age is creation order. This excludes every younger upstream, not only one that closes a cycle. Swift accepts any upstream, and through a cycle its `cancel` would recurse forever; creation order is the measure that makes `cancel` terminate in the model.
- Runtime.World.Fulfill: states the trace only when every drained dispatch is a user closure. With forwarding closures it states that no completed promise changes, and `Scenarios.ThenPending` follows one such drain step by step.
- Runtime.World.Complete: states the trace only when every drained dispatch is a user closure, as for `Fulfill`. With forwarding closures it states, in addition, that every inline error forward settles its child with the error.
- Runtime.World.Cancel: states the trace only when everything the chain drains is a user closure.
- Runtime.World.Execute: states the trace and backlog only for user closures. For forwarding closures it states progress, that no completed promise changes and, under an error, that every inline error forward settled its child; where a forwarded value ends up is not stated.
- Runtime.World.Step: states the effect of an inline dispatch on a child only for an error forward; `Invoke` states the other kinds.
- Runtime.World.CancelUpstream: states the trace, and which promises keep their state, only when the chain drains user closures only. A forward-error closure of `then` in that drain can reject the promise itself (Sources/ShallowPromises/Promise.swift:87-89), so the promise is not claimed to be unchanged.
- Runtime.World.RunApplyNext: registers the forward-error closure on the promise `next` returns before it delivers the forward-value closure, where Swift registers it after. The two orders agree, because a promise that is already fulfilled never runs its error closures.
- Scenarios.ThenPending: leaves out the test's final `temporal.fulfill(with: 1)`; `Scenarios.FulfillTwice` shows that a second fulfil changes nothing.
- testThenPendingQueue in Tests/ShallowPromisesTests/ThenTests.swift:75-95 is not modelled as a scenario. Its `then(in: .main)` (line 83) submits the apply-`next` closure to `.main`, and running that closure from the queue fulfils `second`. `World.Fulfill` does not state that drain's trace or backlog, because `Execute` states them only when every dispatch is a user closure. The queued step on its own is stated by `Runtime.World.RunSubmitted` and `Runtime.World.RunNested`: an apply-`next` closure whose inner promise is fulfilled settles the child with that value.
