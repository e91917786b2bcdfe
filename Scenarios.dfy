/** The behaviours the library's tests check, stated on the model. Each
    scenario starts from an empty world, makes the calls its test makes,
    with the test's closures numbered in the order they appear, and returns the
    trace of the user closures that ran. */
module Scenarios {
  import opened Base
  import opened Registry
  import opened Promises
  import opened Runtime

  /** `Promise().fulfill(with: 0).fulfill(with: 1)`: the second fulfill
      is ignored, and with no closure registered nothing runs. */
  method FulfilledTwice(w: World<int>) returns (p: Promise<int>)
    requires w.Valid() && w.promises == {} && w.registries == {} && w.trace == [] && w.backlog == []
    modifies w`promises, w`registries, w`clock, w`trace, w`backlog
    ensures fresh(p) && w.promises == {p} && forall r | r in w.registries :: fresh(r)
    ensures w.Valid() && p.State() == Fulfilled(0) && w.trace == [] && w.backlog == []
  {
    assert OnFulfill<int, SuccessCallback<int>, ErrorCallback<int>, CallbackId>(Entries([], [], []), 0, None) == [];
    assert Ran<int>([]) == [] && Submitted<int>([]) == [];
    p := w.NewPromise(None, None, null);
    assert w.promises == {p} && w.registries == {p.futures};
    w.Fulfill(p, 0, None);
    assert w.trace == [] && w.backlog == [];
    w.Fulfill(p, 1, None);
  }

  /** `Promise().fulfill(with: 0).fulfill(with: 1).onSuccess { 1 }.finally { 2 }`:
      the second fulfill is ignored, so the success closure sees 0, and the
      finally closure runs after it. */
  method FulfillTwice() returns (trace: seq<Event<int>>)
    ensures trace == [SuccessRan(1, 0, None), FinallyRan(2, None)]
  {
    var w := new World<int>();
    var p := FulfilledTwice(w);
    w.OnSuccess(p, None, 1);
    assert w.trace == [SuccessRan(1, 0, None)] && w.backlog == [] && p.State() == Fulfilled(0);
    w.Finally(p, None, 2);
    trace := w.trace;
  }

  /** The upstream promise of the cancelling tests: a pending promise with
      a success closure 1, an error closure 2 and a finally closure 3, none
      of which has run. */
  method CancellingTestUpstream(w: World<int>) returns (little: Promise<int>)
    requires w.Valid() && w.promises == {} && w.registries == {}
    modifies w`promises, w`registries, w`clock, w`trace, w`backlog
    ensures fresh(little) && fresh(little.futures) && w.registries == {little.futures}
    ensures w.Valid() && w.promises == {little} && w.trace == old(w.trace) && w.backlog == old(w.backlog)
    ensures little.IsPending() && little.littlePromise == null && little.rank < w.clock
    ensures little.Registry() == Entries([Future(OnValue(1), None)], [Future(OnError(2), None)], [FinallyFuture(3, None)])
  {
    little := w.NewPromise(None, None, null);
    w.OnSuccess(little, None, 1);
    w.OnError(little, None, 2);
    w.Finally(little, None, 3);
  }

  /** A promise made with `littlePromise:` cancels that upstream when it
      is cancelled: the upstream's error closure sees `Cancelled`, then its
      finally closure runs; its success closure never runs. */
  method CancelLittlePromise() returns (trace: seq<Event<int>>)
    ensures trace == [ErrorRan(2, Cancelled, None), FinallyRan(3, None)]
  {
    ghost var drain := CancelledUpstream();
    var w := new World<int>();
    var little := CancellingTestUpstream(w);
    var promise := w.NewPromise(None, None, little);
    assert w.CancelDrain(little) == drain by {
      assert w.UpstreamDrain(little) == [];
    }
    assert w.CancelDrain(promise) == drain by {
      assert w.UpstreamDrain(promise) == drain;
    }
    assert w.promises == {little, promise} && w.registries == {little.futures, promise.futures};
    w.Cancel(promise);
    trace := w.trace;
  }

  /** What cancelling the upstream of the cancelling tests dispatches: its
      error closure with `Cancelled`, then its finally closure, both inline;
      a promise with no closures dispatches nothing. */
  lemma CancelledUpstream() returns (drain: seq<Work<int>>)
    ensures drain == OnComplete(Entries([Future(OnValue(1), None)], [Future(OnError(2), None)], [FinallyFuture(3, None)]), Cancelled, None)
    ensures OnComplete<int, SuccessCallback<int>, ErrorCallback<int>, CallbackId>(Entries([], [], []), Cancelled, None) == []
    ensures AllUser(drain) && Ran(drain) == [ErrorRan(2, Cancelled, None), FinallyRan(3, None)] && Submitted(drain) == []
  {
    drain := [Failure(OnError(2), Cancelled, None), Dispatch.Finally(3, None)];
    assert drain[..1] == [Failure(OnError(2), Cancelled, None)];
  }

  /** A promise whose `littlePromise` is set after it was rejected cancels
      that upstream at once: the upstream's error closure sees `Cancelled`,
      then its finally closure runs. */
  method CancelledLittlePromise() returns (trace: seq<Event<int>>)
    ensures trace == [ErrorRan(2, Cancelled, None), FinallyRan(3, None)]
  {
    ghost var drain := CancelledUpstream();
    var w := new World<int>();
    var little := CancellingTestUpstream(w);
    var promise := w.NewPromise(None, None, null);
    assert w.promises == {little, promise} && w.registries == {little.futures, promise.futures};
    w.Complete(promise, Thrown(0), None);
    assert little.rank < promise.rank;
    assert promise.State() == Rejected(Thrown(0)) && w.trace == [] && w.backlog == [];
    assert w.CancelDrain(little) == drain by {
      assert w.UpstreamDrain(little) == [];
    }
    w.SetLittlePromise(promise, little);
    trace := w.trace;
  }

  /** `Promise().fulfill(with: 0, in: .main).finally { 1 }`: a finally
      closure added after completion, with no queue of its own, runs at
      once on the caller's thread. */
  method FinallyAfterFulfil() returns (trace: seq<Event<int>>)
    ensures trace == [FinallyRan(1, None)]
  {
    assert OnFulfill<int, SuccessCallback<int>, ErrorCallback<int>, CallbackId>(Entries([], [], []), 0, Some(Queue(0))) == [];
    assert Ran<int>([]) == [] && Submitted<int>([]) == [];
    var w := new World<int>();
    var p := w.NewPromise(None, None, null);
    assert w.promises == {p} && w.registries == {p.futures};
    w.Fulfill(p, 0, Some(Queue(0)));
    assert w.trace == [] && !p.IsPending();
    w.Finally(p, None, 1);
    trace := w.trace;
  }

  /** `Promise(successClosure: { 1 }, queue: .main).fulfill(with: 0)`: the
      closure given at creation keeps its own queue, so fulfilling submits
      it there instead of running it; it runs when that queue gets to it. */
  method InitCompletion() returns (trace: seq<Event<int>>)
    ensures trace == [SuccessRan(1, 0, Some(Queue(0)))]
  {
    ghost var drain := InitDrain();
    var w := new World<int>();
    var p := w.NewPromise(Some(1), Some(Queue(0)), null);
    assert w.promises == {p} && w.registries == {p.futures};
    w.Fulfill(p, 0, None);
    assert w.trace == [] && w.backlog == drain;
    w.RunSubmitted(0);
    trace := w.trace;
  }

  /** What fulfilling a promise created with a success closure on a queue
      dispatches: that closure, submitted to its own queue. */
  lemma InitDrain() returns (drain: seq<Work<int>>)
    ensures drain == OnFulfill(Entries([Future(OnValue(1), Some(Queue(0)))], [], []), 0, None)
    ensures AllUser(drain) && Ran(drain) == [] && Submitted(drain) == drain
    ensures drain == [Success(OnValue(1), 0, Some(Queue(0)))]
  {
    drain := [Success(OnValue(1), 0, Some(Queue(0)))];
    assert drain[..0] == [];
  }

  /** `Promise().fulfill(with: 0).onSuccess { 1 }`, the first promise of
      `testThenFulfilled`: its success closure has run with 0. */
  method FulfilledFirst(w: World<int>) returns (first: Promise<int>)
    requires w.Valid() && w.promises == {} && w.registries == {} && w.trace == [] && w.backlog == []
    modifies w`promises, w`registries, w`clock, w`trace, w`backlog
    ensures fresh(first) && w.promises == {first} && forall r | r in w.registries :: fresh(r)
    ensures w.Valid() && first.State() == Fulfilled(0) && w.trace == [SuccessRan(1, 0, None)] && w.backlog == []
  {
    assert OnFulfill<int, SuccessCallback<int>, ErrorCallback<int>, CallbackId>(Entries([], [], []), 0, None) == [];
    assert Ran<int>([]) == [] && Submitted<int>([]) == [];
    first := w.NewPromise(None, None, null);
    assert w.promises == {first} && w.registries == {first.futures};
    w.Fulfill(first, 0, None);
    w.OnSuccess(first, None, 1);
  }

  /** `Promise().fulfill(with: value)`: a new promise, fulfilled before
      any closure is added, so nothing runs and no other promise changes. */
  method FulfilledWith(w: World<int>, value: int) returns (p: Promise<int>)
    requires w.Valid()
    modifies w`promises, w`registries, w`clock, w`trace, w`backlog, w.promises, w.registries
    ensures fresh(p) && w.promises == old(w.promises) + {p} && forall r | r in w.registries && r !in old(w.registries) :: fresh(r)
    ensures w.Valid() && p.State() == Fulfilled(value) && w.trace == old(w.trace) && w.backlog == old(w.backlog)
    ensures (forall q | q in old(w.promises) :: unchanged(q)) && forall r | r in old(w.registries) :: unchanged(r)
  {
    assert OnFulfill<int, SuccessCallback<int>, ErrorCallback<int>, CallbackId>(Entries([], [], []), value, None) == [];
    assert Ran<int>([]) == [] && Submitted<int>([]) == [];
    p := w.NewPromise(None, None, null);
    w.Fulfill(p, value, None);
  }

  /** `then` on a fulfilled promise returns the promise its closure makes,
      here one already fulfilled with 1, whose success closure then runs at
      once; the first promise's success closure ran before with 0. */
  method ThenFulfilled() returns (trace: seq<Event<int>>)
    ensures trace == [SuccessRan(1, 0, None), SuccessRan(2, 1, None)]
  {
    var w := new World<int>();
    var first := FulfilledFirst(w);
    var inner := FulfilledWith(w, 1);
    var second := w.Then(first, None, v => inner);
    w.OnSuccess(second, None, 2);
    trace := w.trace;
  }

  /** `Promise().complete(with: error).onSuccess { 1 }.finally { 2 }`, the
      first promise of `testThenErrorFulfilled`: only its finally closure
      has run. */
  method RejectedFirst(w: World<int>) returns (first: Promise<int>)
    requires w.Valid() && w.promises == {} && w.registries == {} && w.trace == [] && w.backlog == []
    modifies w`promises, w`registries, w`clock, w`trace, w`backlog
    ensures fresh(first) && w.promises == {first} && forall r | r in w.registries :: fresh(r)
    ensures w.Valid() && first.State() == Rejected(Thrown(0)) && w.trace == [FinallyRan(2, None)] && w.backlog == []
  {
    assert OnComplete<int, SuccessCallback<int>, ErrorCallback<int>, CallbackId>(Entries([], [], []), Thrown(0), None) == [];
    assert Ran<int>([]) == [] && Submitted<int>([]) == [];
    first := w.NewPromise(None, None, null);
    assert w.promises == {first} && w.registries == {first.futures};
    w.Complete(first, Thrown(0), None);
    w.OnSuccess(first, None, 1);
    w.Finally(first, None, 2);
  }

  /** `.onSuccess { 3 }.onError { 4 }.finally { 5 }` on the promise `then`
      returned, rejected with the first promise's error: the success
      closure never runs, the error closure sees that error, then the
      finally closure runs. */
  method RejectedSecond(w: World<int>, second: Promise<int>) returns (trace: seq<Event<int>>)
    requires w.Valid() && second in w.promises && second.State() == Rejected(Thrown(0))
    requires w.trace == [FinallyRan(2, None)] && w.backlog == []
    modifies w`trace, w`backlog, second.futures
    ensures trace == [FinallyRan(2, None), ErrorRan(4, Thrown(0), None), FinallyRan(5, None)]
  {
    w.OnSuccess(second, None, 3);
    w.OnError(second, None, 4);
    w.Finally(second, None, 5);
    trace := w.trace;
  }

  /** `then` on a rejected promise never calls its closure and returns a
      new promise rejected with the same error. The first promise's finally
      closure ran before. */
  method ThenErrorFulfilled() returns (trace: seq<Event<int>>)
    ensures trace == [FinallyRan(2, None), ErrorRan(4, Thrown(0), None), FinallyRan(5, None)]
  {
    var w := new World<int>();
    var first := RejectedFirst(w);
    var second := w.Then(first, None, v => first);
    trace := RejectedSecond(w, second);
  }

  /** `Promise<Int>().onSuccess { 1 }`, the first promise of
      `testThenPending`: pending, with closure 1 registered. */
  method PendingFirst(w: World<int>) returns (first: Promise<int>)
    requires w.Valid() && w.promises == {} && w.registries == {} && w.trace == [] && w.backlog == []
    modifies w`promises, w`registries, w`clock, w`trace, w`backlog
    ensures fresh(first) && w.promises == {first} && forall r | r in w.registries :: fresh(r)
    ensures w.Valid() && w.trace == [] && w.backlog == []
    ensures first.IsPending() && first.Registry() == Entries([Future(OnValue(1), None)], [], [])
  {
    first := w.NewPromise(None, None, null);
    assert w.promises == {first} && w.registries == {first.futures};
    w.OnSuccess(first, None, 1);
  }

  /** The setup of `testThenPending`: `first` is pending with success
      closure 1; `second = first.then { _ in temporal }` is pending with
      success closure 2, and `first` holds the two forwarding closures of
      `then` behind closure 1. `temporal` is the promise the closure of
      `then` returns, already fulfilled with 1 as in the test. */
  method PendingChain(w: World<int>) returns (first: Promise<int>, temporal: Promise<int>, second: Promise<int>, next: int -> Promise<int>)
    requires w.Valid() && w.promises == {} && w.registries == {} && w.trace == [] && w.backlog == []
    modifies w`promises, w`registries, w`clock, w`trace, w`backlog
    ensures fresh(first) && fresh(temporal) && fresh(second) && w.promises == {first, temporal, second}
    ensures forall r | r in w.registries :: fresh(r)
    ensures w.Valid() && w.trace == [] && w.backlog == [] && forall v :: next(v) == temporal
    ensures first.IsPending() && first.Registry() == Entries([Future(OnValue(1), None), Future(ApplyNext(second, next), None)], [Future(ForwardError(second), None)], [])
    ensures temporal.State() == Fulfilled(1) && second.IsPending() && second.Registry() == Entries([], [], [])
    ensures first != second && temporal.futures != second.futures
  {
    first := PendingFirst(w);
    temporal := FulfilledWith(w, 1);
    next := v => temporal;
    second := w.Then(first, None, next);
  }

  /** What fulfilling the first promise of `testThenPending` with 0
      dispatches: its success closure, then the closure `then` registered,
      both inline. */
  lemma ThenDrain(second: Promise<int>, next: int -> Promise<int>) returns (drain: seq<Work<int>>)
    ensures drain == OnFulfill<int, SuccessCallback<int>, ErrorCallback<int>, CallbackId>(
                       Entries([Future(OnValue(1), None), Future(ApplyNext(second, next), None)], [Future(ForwardError(second), None)], []), 0, None)
    ensures drain == [Success(OnValue(1), 0, None), Success(ApplyNext(second, next), 0, None)]
  {
    drain := [Success(OnValue(1), 0, None), Success(ApplyNext(second, next), 0, None)];
    var futures := [Future(OnValue(1), None), Future(ApplyNext(second, next), None)];
    assert futures[..1] == [Future(OnValue(1), None)];
    assert Delivered<int, SuccessCallback<int>, int, SuccessCallback<int>, ErrorCallback<int>, CallbackId>(futures[..1], 0, None, MakeSuccess) == drain[..1];
    assert Delivered<int, SuccessCallback<int>, int, SuccessCallback<int>, ErrorCallback<int>, CallbackId>(futures, 0, None, MakeSuccess) == drain;
  }

  /** What fulfilling the second promise of `testThenPending` with 1
      dispatches: its success closure, inline. */
  lemma SecondDrain() returns (drain: seq<Work<int>>)
    ensures drain == OnFulfill<int, SuccessCallback<int>, ErrorCallback<int>, CallbackId>(Entries([Future(OnValue(2), None)], [], []), 1, None)
    ensures drain == [Success(OnValue(2), 1, None)]
  {
    drain := [Success(OnValue(2), 1, None)];
    assert Delivered<int, SuccessCallback<int>, int, SuccessCallback<int>, ErrorCallback<int>, CallbackId>([Future(OnValue(2), None)], 1, None, MakeSuccess) == drain;
  }

  /** `first.fulfill(with: 0)` in `testThenPending`, up to the forwarding:
      closure 1 runs with 0, then the closure of `then` applies `next`,
      finds `temporal` fulfilled with 1 and hands back the forwarding of 1
      into `second`. Only `first`, the trace and `temporal`'s registry may
      change. */
  method FulfilFirst(w: World<int>, first: Promise<int>, temporal: Promise<int>, second: Promise<int>, next: int -> Promise<int>)
    returns (more: seq<Work<int>>)
    requires w.Valid() && first in w.promises && second in w.promises && w.trace == []
    requires (forall v :: next(v) == temporal) && temporal in w.promises && temporal.State() == Fulfilled(1)
    requires first.IsPending() && first.Registry() == Entries([Future(OnValue(1), None), Future(ApplyNext(second, next), None)], [Future(ForwardError(second), None)], [])
    requires first != second && temporal.futures != second.futures
    requires second.IsPending() && second.Registry() == Entries([Future(OnValue(2), None)], [], [])
    modifies w`trace, first, temporal.futures
    ensures w.Valid() && w.trace == [SuccessRan(1, 0, None)] && more == [Success(ForwardValue(second), 1, None)]
    ensures second.IsPending() && second.Registry() == Entries([Future(OnValue(2), None)], [], [])
  {
    ghost var drain := ThenDrain(second, next);
    var work := w.SettleWithValue(first, 0, None);
    assert work == drain && w.trace == [];
    w.RunUser(work[0]);
    assert w.trace == [SuccessRan(1, 0, None)];
    more := w.RunApplyNext(second, next, 0);
  }

  /** The forwarding `FulfilFirst` hands back, run: it fulfills `second`
      with 1, whose success closure 2 then runs with 1. */
  method ForwardSecond(w: World<int>, second: Promise<int>, more: seq<Work<int>>) returns (trace: seq<Event<int>>, state: State<int>)
    requires w.Valid() && second in w.promises && w.trace == [SuccessRan(1, 0, None)] && more == [Success(ForwardValue(second), 1, None)]
    requires second.IsPending() && second.Registry() == Entries([Future(OnValue(2), None)], [], [])
    modifies w`trace, second
    ensures trace == [SuccessRan(1, 0, None), SuccessRan(2, 1, None)] && state == Fulfilled(1)
  {
    ghost var forwarded := SecondDrain();
    var work := w.SettleWithValue(more[0].successClosure.child, more[0].value, more[0].context);
    assert work == forwarded;
    w.RunUser(work[0]);
    assert w.trace == [SuccessRan(1, 0, None)] + [SuccessRan(2, 1, None)];
    trace, state := w.trace, second.State();
  }

  /** `testThenPending`: `then` on a pending promise, which is fulfilled
      later. Fulfilling `first` with 0 runs its success closure, then the
      closure of `then`, which finds `temporal` fulfilled with 1 and hands
      back the forwarding of 1 into `second`; that fulfills `second`, whose
      success closure runs with 1. The dispatches run one by one in the
      order `fulfill` runs them. */
  method ThenPending() returns (trace: seq<Event<int>>, state: State<int>)
    ensures trace == [SuccessRan(1, 0, None), SuccessRan(2, 1, None)] && state == Fulfilled(1)
  {
    var w := new World<int>();
    var first, temporal, second, next := PendingChain(w);
    w.OnSuccess(second, None, 2);
    assert second.IsPending() && second.Registry() == Entries([Future(OnValue(2), None)], [], []);
    var more := FulfilFirst(w, first, temporal, second, next);
    trace, state := ForwardSecond(w, second, more);
  }

  /** What completing a promise that only carries the closures of one
      `then` dispatches: the error forwarding, inline. */
  lemma RejectDrain(child: Promise<int>, next: int -> Promise<int>) returns (drain: seq<Work<int>>)
    ensures drain == OnComplete<int, SuccessCallback<int>, ErrorCallback<int>, CallbackId>(
                       Entries([Future(ApplyNext(child, next), None)], [Future(ForwardError(child), None)], []), Thrown(7), None)
    ensures drain == [Failure(ForwardError(child), Thrown(7), None)]
  {
    drain := [Failure(ForwardError(child), Thrown(7), None)];
    assert Delivered<Error, ErrorCallback<int>, int, SuccessCallback<int>, ErrorCallback<int>, CallbackId>(
             [Future(ForwardError(child), None)], Thrown(7), None, MakeFailure) == drain;
  }

  /** `child = p.then { _ in p }` on a pending `p`, then `p.complete(with:)`
      with error 7: the error closure `then` registered on `p` runs inline
      and rejects `child` with the same error. */
  method ThenRejected() returns (state: State<int>)
    ensures state == Rejected(Thrown(7))
  {
    var w := new World<int>();
    var p := w.NewPromise(None, None, null);
    assert w.promises == {p} && w.registries == {p.futures};
    var next: int -> Promise<int> := v => p;
    var child := w.Then(p, None, next);
    ghost var drain := RejectDrain(child, next);
    assert child in w.States() && w.States()[child] == Pending;
    w.Complete(p, Thrown(7), None);
    assert ForwardsError(drain[0]);
    state := child.State();
  }
}
