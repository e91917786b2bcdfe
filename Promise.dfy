/** The single-assignment promise of Sources/ShallowPromises/Promise.swift.

    Each method of `Promise` is one `syncQueue.sync` region, taken as one
    atomic step, together with the code around it that does not run a
    closure. Where the Swift method then runs closures (the drained registry
    after a completion, or the closure given to `onSuccess`, `onError` or
    `finally` on a completed promise), the Dafny method returns those
    dispatches in order, as `work`, and module Runtime runs them. */
module Promises {
  import opened Base
  import opened Registry

  /** Pending, fulfilled with a result, or rejected with an error. */
  datatype State<T> = Pending | Fulfilled(value: T) | Rejected(error: Error)

  /** The argument of one completing call: `fulfill(with:)` or `complete(with:)`. */
  datatype Completion<T> = WithResult(value: T) | WithError(error: Error)

  /** The state a completing call writes into a pending promise. */
  function Outcome<T>(c: Completion<T>): State<T>
  {
    match c
    case WithResult(v) => Fulfilled(v)
    case WithError(e) => Rejected(e)
  }

  /** One completing call: it only takes effect on a pending promise. */
  function Settle<T>(s: State<T>, c: Completion<T>): State<T>
  {
    if s.Pending? then Outcome(c) else s
  }

  /** The state after a sequence of completing calls. */
  function Replay<T>(s: State<T>, calls: seq<Completion<T>>): State<T>
    decreases |calls|
  {
    if calls == [] then s else Replay(Settle(s, calls[0]), calls[1..])
  }

  /** For each call of a sequence, whether it found the promise pending, so
      that `setResult` handed it the registry to drain. */
  function Drains<T>(s: State<T>, calls: seq<Completion<T>>): seq<bool>
    decreases |calls|
  {
    if calls == [] then [] else [s.Pending?] + Drains(Settle(s, calls[0]), calls[1..])
  }

  /** A completed promise ignores every later completing call and none of
      them drains anything. */
  lemma {:induction false} CompletedIgnoresCalls<T>(s: State<T>, calls: seq<Completion<T>>)
    requires !s.Pending?
    ensures Replay(s, calls) == s
    ensures |Drains(s, calls)| == |calls|
    ensures forall i | 0 <= i < |calls| :: !Drains(s, calls)[i]
  {
    if calls != [] {
      CompletedIgnoresCalls(s, calls[1..]);
    }
  }

  /** First writer wins: after any sequence of completing calls on a
      pending promise, its state is the one the first call wrote. */
  lemma FirstWriterWins<T>(calls: seq<Completion<T>>)
    requires calls != []
    ensures Replay(Pending, calls) == Outcome(calls[0])
  {
    CompletedIgnoresCalls(Outcome(calls[0]), calls[1..]);
  }

  /** The registry is drained at most once over any sequence of completing
      calls, and only by the first call, when the promise was pending. */
  lemma DrainedOnce<T>(s: State<T>, calls: seq<Completion<T>>)
    ensures |Drains(s, calls)| == |calls|
    ensures forall i | 0 <= i < |calls| :: Drains(s, calls)[i] <==> (i == 0 && s.Pending?)
  {
    if calls != [] {
      CompletedIgnoresCalls(Settle(s, calls[0]), calls[1..]);
    }
  }

  /** The closures a success list holds: a user closure, or one of the two
      forwarding closures `then` creates. */
  datatype SuccessCallback<!T> =
    | OnValue(id: CallbackId)
      /** Registered by `registerNext` on the source: applies `next` to the
          source's result and forwards the returned promise into `child`. */
    | ApplyNext(child: Promise<T>, next: T -> Promise<T>)
      /** Registered on the promise `next` returned: fulfills `child`. */
    | ForwardValue(child: Promise<T>)

  /** The closures an error list holds: a user closure, or the forwarding
      closure that completes `child` with the error. */
  datatype ErrorCallback<T> =
    | OnError(id: CallbackId)
    | ForwardError(child: Promise<T>)

  /** What a promise's registry contains, as a value. */
  type Callbacks<!T> = Entries<SuccessCallback<T>, ErrorCallback<T>, CallbackId>

  /** A closure handed over for execution. */
  type Work<!T> = Dispatch<T, SuccessCallback<T>, ErrorCallback<T>, CallbackId>

  /** What `getResultOrRegisterThen` returns: the result, the error, or the
      child promise it registered (the source's `Any`, as a tagged union). */
  datatype Lookup<T> = Found(value: T) | Failed(error: Error) | Chained(child: Promise<T>)

  class Promise<T> {
    var result: Option<T>
    var error: Option<Error>
    var futures: Futures?<T, SuccessCallback<T>, ErrorCallback<T>, CallbackId>
    var littlePromise: Promise?<T>
    /** Creation order: an upstream promise is always older than the
        promises that point to it, which is why `cancel` terminates. */
    ghost const rank: nat

    /** At most one of result and error is set, and a pending promise
        still owns its registry. */
    ghost predicate Valid()
      reads this`result, this`error, this`futures
    {
      !(result.Some? && error.Some?) && (IsPending() ==> futures != null)
    }

    predicate IsPending()
      reads this`result, this`error
    {
      result.None? && error.None?
    }

    function State(): State<T>
      reads this`result, this`error
    {
      if result.Some? then Fulfilled(result.value)
      else if error.Some? then Rejected(error.value)
      else Pending
    }

    /** The callbacks waiting in the registry; none once it is dropped. */
    ghost function Registry(): Callbacks<T>
      reads this, futures
    {
      if futures == null then Entries([], [], []) else futures.Contents()
    }

    /** `init(successClosure:queue:littlePromise:)`. Assigning
        `littlePromise` here does not run its observer. */
    constructor (successClosure: Option<CallbackId>, queue: Option<Queue>, littlePromise: Promise?<T>, ghost rank: nat)
      ensures Valid() && State() == Pending
      ensures this.littlePromise == littlePromise && this.rank == rank
      ensures futures != null && fresh(futures)
      ensures Registry() == Entries(if successClosure.Some? then [Future(OnValue(successClosure.value), queue)] else [], [], [])
    {
      result := None;
      error := None;
      var registry := new Futures();
      if successClosure.Some? {
        registry.AppendSuccess(OnValue(successClosure.value), queue);
      }
      futures := registry;
      this.littlePromise := littlePromise;
      this.rank := rank;
    }

    /** `init(result:error:)`: a promise created already settled. It still
        gets a fresh, empty registry, which is never drained. */
    constructor Settled(result: Option<T>, error: Option<Error>, ghost rank: nat)
      requires !(result.Some? && error.Some?)
      ensures Valid() && this.result == result && this.error == error
      ensures littlePromise == null && this.rank == rank
      ensures futures != null && fresh(futures) && Registry() == Entries([], [], [])
    {
      this.result := result;
      this.error := error;
      futures := new Futures();
      littlePromise := null;
      this.rank := rank;
    }

    /** The locked transition: a pending promise takes the result or the
        error and hands over its registry, which it drops; a completed one
        changes nothing and hands over nothing. */
    method SetResult(result: Option<T>, error: Option<Error>)
      returns (last: Futures?<T, SuccessCallback<T>, ErrorCallback<T>, CallbackId>)
      requires Valid() && result.Some? != error.Some?
      modifies this`result, this`error, this`futures
      ensures Valid()
      ensures old(IsPending()) ==> this.result == result && this.error == error && last == old(futures) && futures == null
      ensures !old(IsPending()) ==> this.result == old(this.result) && this.error == old(this.error)
      ensures !old(IsPending()) ==> futures == old(futures) && last == null
    {
      if this.result.Some? || this.error.Some? {
        return null;
      }
      this.result := result;
      this.error := error;
      last := futures;
      futures := null;
    }

    /** `fulfill(with:in:)`: first writer wins; only the call that fulfills
        a pending promise returns the drained registry's dispatches. */
    method Fulfill(value: T, queue: Option<Queue>) returns (work: seq<Work<T>>)
      requires Valid()
      modifies this`result, this`error, this`futures
      ensures Valid()
      ensures State() == Settle(old(State()), WithResult(value))
      ensures futures == if old(IsPending()) then null else old(futures)
      ensures work == if old(IsPending()) then OnFulfill(old(Registry()), value, queue) else []
    {
      var last := SetResult(Some(value), None);
      if last != null {
        work := last.Fulfill(value, queue);
      } else {
        work := [];
      }
    }

    /** `complete(with:in:)`: the error channel's counterpart of `Fulfill`. */
    method Complete(error: Error, queue: Option<Queue>) returns (work: seq<Work<T>>)
      requires Valid()
      modifies this`result, this`error, this`futures
      ensures Valid()
      ensures State() == Settle(old(State()), WithError(error))
      ensures futures == if old(IsPending()) then null else old(futures)
      ensures work == if old(IsPending()) then OnComplete(old(Registry()), error, queue) else []
    {
      var last := SetResult(None, Some(error));
      if last != null {
        work := last.Complete(error, queue);
      } else {
        work := [];
      }
    }

    /** The locked part of `then`: a completed promise reports its result
        or error; a pending one registers the forwarding closures. */
    method GetResultOrRegisterThen(next: T -> Promise<T>, queue: Option<Queue>, ghost childRank: nat)
      returns (r: Lookup<T>)
      requires Valid() && rank < childRank
      modifies futures
      ensures State().Fulfilled? ==> r == Found(State().value) && Registry() == old(Registry())
      ensures State().Rejected? ==> r == Failed(State().error) && Registry() == old(Registry())
      ensures State().Pending? ==> r.Chained? && Registered(r.child, next, queue, childRank)
    {
      if result.Some? {
        r := Found(result.value);
      } else if error.Some? {
        r := Failed(error.value);
      } else {
        var child := RegisterNext(next, queue, childRank);
        r := Chained(child);
      }
    }

    /** What `registerNext` leaves behind: a fresh pending child whose
        upstream is this promise, and one forwarding closure appended to
        each of this promise's success and error lists. */
    twostate predicate Registered(new child: Promise<T>, next: T -> Promise<T>, queue: Option<Queue>, childRank: nat)
      reads this, futures, child, child.futures
    {
      && fresh(child) && child.Valid() && child.State() == Pending
      && child.littlePromise == this && child.rank == childRank
      && child.futures != null && fresh(child.futures) && child.Registry() == Entries([], [], [])
      && futures == old(futures)
      && Registry() == if futures == null then old(Registry()) else
           Entries(old(Registry()).successFutures + [Future(ApplyNext(child, next), queue)],
                   old(Registry()).errorFutures + [Future(ForwardError(child), queue)],
                   old(Registry()).finallyFutures)
    }

    method RegisterNext(next: T -> Promise<T>, queue: Option<Queue>, ghost childRank: nat) returns (child: Promise<T>)
      requires Valid() && rank < childRank
      modifies futures
      ensures Registered(child, next, queue, childRank)
    {
      child := new Promise(None, None, this, childRank);
      if futures != null {
        futures.AppendSuccess(ApplyNext(child, next), queue);
        futures.AppendError(ForwardError(child), queue);
      }
    }

    /** `then(in:_:)`: on a fulfilled promise, `next(result)` itself, called
        inline whatever the queue; on a rejected one, a fresh promise
        rejected with the same error and no upstream; on a pending one, the
        child `registerNext` created. */
    method Then(queue: Option<Queue>, next: T -> Promise<T>, ghost childRank: nat) returns (r: Promise<T>)
      requires Valid() && rank < childRank
      modifies futures
      ensures State().Fulfilled? ==> r == next(State().value) && Registry() == old(Registry())
      ensures State().Rejected? ==> Registry() == old(Registry())
      ensures State().Rejected? ==> && fresh(r) && r.Valid() && r.State() == State() && r.littlePromise == null
                                    && r.rank == childRank
                                    && r.futures != null && fresh(r.futures) && r.Registry() == Entries([], [], [])
      ensures State().Pending? ==> Registered(r, next, queue, childRank)
    {
      var found := GetResultOrRegisterThen(next, queue, childRank);
      if found.Found? {
        r := next(found.value);
      } else if found.Failed? {
        r := new Promise.Settled(None, Some(found.error), childRank);
      } else {
        r := found.child;
      }
    }

    /** `onSuccess(in:_:)`: a fulfilled promise hands the closure back with
        the result, to run on the call's queue or inline; a pending one
        appends it to the success list; a rejected one appends it to its
        registry if it still has one, where it is never run. */
    method OnSuccess(queue: Option<Queue>, closure: SuccessCallback<T>) returns (work: seq<Work<T>>)
      requires Valid()
      modifies futures
      ensures result.Some? ==> work == [Success(closure, result.value, queue)] && Registry() == old(Registry())
      ensures result.None? ==> work == []
      ensures result.None? ==> Registry() == if futures == null then old(Registry()) else
                old(Registry()).(successFutures := old(Registry()).successFutures + [Future(closure, queue)])
    {
      var safeResult: Option<T> := None;
      if result.Some? {
        safeResult := result;
      } else if futures != null {
        futures.AppendSuccess(closure, queue);
      }
      if safeResult.Some? {
        work := [Success(closure, safeResult.value, queue)];
      } else {
        work := [];
      }
    }

    /** `onError(in:_:)`: the error channel's counterpart of `OnSuccess`. */
    method OnError(queue: Option<Queue>, closure: ErrorCallback<T>) returns (work: seq<Work<T>>)
      requires Valid()
      modifies futures
      ensures error.Some? ==> work == [Failure(closure, error.value, queue)] && Registry() == old(Registry())
      ensures error.None? ==> work == []
      ensures error.None? ==> Registry() == if futures == null then old(Registry()) else
                old(Registry()).(errorFutures := old(Registry()).errorFutures + [Future(closure, queue)])
    {
      var safeError: Option<Error> := None;
      if error.Some? {
        safeError := error;
      } else if futures != null {
        futures.AppendError(closure, queue);
      }
      if safeError.Some? {
        work := [Failure(closure, safeError.value, queue)];
      } else {
        work := [];
      }
    }

    /** `finally(in:_:)`: a completed promise, whichever way, hands the
        closure back to run now; a pending one appends it to the finally
        list. */
    method Finally(queue: Option<Queue>, closure: CallbackId) returns (work: seq<Work<T>>)
      requires Valid()
      modifies futures
      ensures !IsPending() ==> work == [Dispatch.Finally(closure, queue)] && Registry() == old(Registry())
      ensures IsPending() ==> work == []
      ensures IsPending() ==>
                Registry() == old(Registry()).(finallyFutures := old(Registry()).finallyFutures + [FinallyFuture(closure, queue)])
    {
      var isCompleted := result.Some? || error.Some?;
      if !isCompleted {
        futures.AppendFinally(closure, queue);
      }
      if isCompleted {
        work := [Dispatch.Finally(closure, queue)];
      } else {
        work := [];
      }
    }

    /** Assigning `littlePromise`. Its `didSet` observer cancels the new
        upstream at once when this promise is already rejected; the
        upstream to cancel is returned, for the caller to cancel. */
    method SetLittlePromise(upstream: Promise?<T>) returns (toCancel: Promise?<T>)
      modifies this`littlePromise
      ensures littlePromise == upstream
      ensures toCancel == if error.Some? then upstream else null
    {
      littlePromise := upstream;
      toCancel := if error.Some? then littlePromise else null;
    }
  }
}
