/** The callback registry of one pending promise (`Futures<T>` in
    Sources/ShallowPromises/Futures.swift): three ordered lists of closures,
    each with the queue it was registered with, and the drains that turn
    them into dispatches when the promise completes.

    The registry is generic in the three closure types (S for success
    closures taking a T, E for error closures taking an Error, F for finally
    closures taking nothing), as the Swift class is generic in its closures.
    Running a closure is left to the caller: a drain returns the ordered
    list of dispatches, each naming the closure, its argument and the queue
    it must be submitted to (None: run inline on the completing thread). */
module Registry {
  import opened Base

  /** A success or error closure with the queue it was registered with. */
  datatype Future<C> = Future(closure: C, queue: Option<Queue>)

  /** A finally closure with the queue it was registered with. */
  datatype FinallyFuture<C> = FinallyFuture(closure: C, queue: Option<Queue>)

  /** One closure handed over for execution, with its argument and the
      queue it is submitted to; `None` means it runs inline. */
  datatype Dispatch<T, S, E, F> =
    | Success(successClosure: S, value: T, context: Option<Queue>)
    | Failure(errorClosure: E, error: Error, context: Option<Queue>)
    | Finally(finallyClosure: F, context: Option<Queue>)

  /** The three lists of a registry, as a value. */
  datatype Entries<S, E, F> = Entries(
    successFutures: seq<Future<S>>,
    errorFutures: seq<Future<E>>,
    finallyFutures: seq<FinallyFuture<F>>)

  /** `future.queue ?? queue`: the queue a closure was registered with wins
      over the queue passed to the completing call. */
  function Resolve(own: Option<Queue>, fallback: Option<Queue>): Option<Queue>
  {
    if own.Some? then own else fallback
  }

  /** Applying a success closure to the result. */
  function MakeSuccess<T, S, E, F>(closure: S, value: T, context: Option<Queue>): Dispatch<T, S, E, F>
  {
    Success(closure, value, context)
  }

  /** Applying an error closure to the error. */
  function MakeFailure<T, S, E, F>(closure: E, error: Error, context: Option<Queue>): Dispatch<T, S, E, F>
  {
    Failure(closure, error, context)
  }

  /** The dispatches of one channel's closures applied to `x`, in
      registration order (the `forEach` of `complete(futures:with:in:)`). */
  function Delivered<U, C, T, S, E, F>(futures: seq<Future<C>>, x: U, queue: Option<Queue>,
                                       make: (C, U, Option<Queue>) -> Dispatch<T, S, E, F>): seq<Dispatch<T, S, E, F>>
  {
    if futures == [] then []
    else
      var last := futures[|futures| - 1];
      Delivered(futures[..|futures| - 1], x, queue, make) + [make(last.closure, x, Resolve(last.queue, queue))]
  }

  /** The dispatches of the finally closures, in registration order
      (the `forEach` of `finalize(in:)`). */
  function Finalized<T, S, E, F>(futures: seq<FinallyFuture<F>>, queue: Option<Queue>): seq<Dispatch<T, S, E, F>>
  {
    if futures == [] then []
    else
      var last := futures[|futures| - 1];
      Finalized(futures[..|futures| - 1], queue) + [Finally(last.closure, Resolve(last.queue, queue))]
  }

  /** Everything `fulfill(with:in:)` dispatches. */
  function OnFulfill<T, S, E, F>(r: Entries<S, E, F>, value: T, queue: Option<Queue>): seq<Dispatch<T, S, E, F>>
  {
    Delivered(r.successFutures, value, queue, MakeSuccess) + Finalized(r.finallyFutures, queue)
  }

  /** Everything `complete(with:in:)` dispatches. */
  function OnComplete<T, S, E, F>(r: Entries<S, E, F>, error: Error, queue: Option<Queue>): seq<Dispatch<T, S, E, F>>
  {
    Delivered(r.errorFutures, error, queue, MakeFailure) + Finalized(r.finallyFutures, queue)
  }

  /** The i-th dispatch of a channel is the i-th closure applied to `x` on
      its own queue, else on the call's queue: one dispatch per closure,
      in registration order. */
  lemma {:induction false} DeliveredAt<U, C, T, S, E, F>(futures: seq<Future<C>>, x: U, queue: Option<Queue>,
                                                         make: (C, U, Option<Queue>) -> Dispatch<T, S, E, F>, i: nat)
    requires i < |futures|
    ensures |Delivered(futures, x, queue, make)| == |futures|
    ensures Delivered(futures, x, queue, make)[i] == make(futures[i].closure, x, Resolve(futures[i].queue, queue))
  {
    var n := |futures| - 1;
    if i < n {
      DeliveredAt(futures[..n], x, queue, make, i);
    } else {
      DeliveredLength(futures[..n], x, queue, make);
    }
  }

  lemma {:induction false} DeliveredLength<U, C, T, S, E, F>(futures: seq<Future<C>>, x: U, queue: Option<Queue>,
                                                             make: (C, U, Option<Queue>) -> Dispatch<T, S, E, F>)
    ensures |Delivered(futures, x, queue, make)| == |futures|
  {
    if futures != [] {
      DeliveredLength(futures[..|futures| - 1], x, queue, make);
    }
  }

  /** The i-th finally dispatch is the i-th finally closure, on its own
      queue, else on the call's queue. */
  lemma {:induction false} FinalizedAt<T, S, E, F>(futures: seq<FinallyFuture<F>>, queue: Option<Queue>, i: nat)
    requires i < |futures|
    ensures |Finalized<T, S, E, F>(futures, queue)| == |futures|
    ensures Finalized<T, S, E, F>(futures, queue)[i] == Finally(futures[i].closure, Resolve(futures[i].queue, queue))
  {
    var n := |futures| - 1;
    if i < n {
      FinalizedAt<T, S, E, F>(futures[..n], queue, i);
    } else {
      FinalizedLength<T, S, E, F>(futures[..n], queue);
    }
  }

  lemma {:induction false} FinalizedLength<T, S, E, F>(futures: seq<FinallyFuture<F>>, queue: Option<Queue>)
    ensures |Finalized<T, S, E, F>(futures, queue)| == |futures|
  {
    if futures != [] {
      FinalizedLength<T, S, E, F>(futures[..|futures| - 1], queue);
    }
  }

  /** Fulfilling a registry runs every success closure once, in order, with
      the result, then every finally closure once, in order; no error
      closure runs, and every finally dispatch comes after every success
      dispatch. */
  lemma FulfillOrder<T, S, E, F>(r: Entries<S, E, F>, value: T, queue: Option<Queue>)
    ensures var d := OnFulfill(r, value, queue);
      && |d| == |r.successFutures| + |r.finallyFutures|
      && (forall i | 0 <= i < |r.successFutures| ::
            d[i] == Success(r.successFutures[i].closure, value, Resolve(r.successFutures[i].queue, queue)))
      && (forall i | 0 <= i < |r.finallyFutures| ::
            d[|r.successFutures| + i] == Finally(r.finallyFutures[i].closure, Resolve(r.finallyFutures[i].queue, queue)))
  {
    var s := r.successFutures;
    var f := r.finallyFutures;
    DeliveredLength(s, value, queue, MakeSuccess<T, S, E, F>);
    FinalizedLength<T, S, E, F>(f, queue);
    forall i | 0 <= i < |s|
      ensures OnFulfill(r, value, queue)[i] == Success(s[i].closure, value, Resolve(s[i].queue, queue))
    {
      DeliveredAt(s, value, queue, MakeSuccess<T, S, E, F>, i);
    }
    forall i | 0 <= i < |f|
      ensures OnFulfill(r, value, queue)[|s| + i] == Finally(f[i].closure, Resolve(f[i].queue, queue))
    {
      FinalizedAt<T, S, E, F>(f, queue, i);
    }
  }

  /** Completing a registry with an error runs every error closure once, in
      order, with that error, then every finally closure once, in order; no
      success closure runs. */
  lemma CompleteOrder<T, S, E, F>(r: Entries<S, E, F>, error: Error, queue: Option<Queue>)
    ensures var d := OnComplete<T, S, E, F>(r, error, queue);
      && |d| == |r.errorFutures| + |r.finallyFutures|
      && (forall i | 0 <= i < |r.errorFutures| ::
            d[i] == Failure(r.errorFutures[i].closure, error, Resolve(r.errorFutures[i].queue, queue)))
      && (forall i | 0 <= i < |r.finallyFutures| ::
            d[|r.errorFutures| + i] == Finally(r.finallyFutures[i].closure, Resolve(r.finallyFutures[i].queue, queue)))
  {
    var s := r.errorFutures;
    var f := r.finallyFutures;
    DeliveredLength(s, error, queue, MakeFailure<T, S, E, F>);
    FinalizedLength<T, S, E, F>(f, queue);
    forall i | 0 <= i < |s|
      ensures OnComplete<T, S, E, F>(r, error, queue)[i] == Failure(s[i].closure, error, Resolve(s[i].queue, queue))
    {
      DeliveredAt(s, error, queue, MakeFailure<T, S, E, F>, i);
    }
    forall i | 0 <= i < |f|
      ensures OnComplete<T, S, E, F>(r, error, queue)[|s| + i] == Finally(f[i].closure, Resolve(f[i].queue, queue))
    {
      FinalizedAt<T, S, E, F>(f, queue, i);
    }
  }

  /** `Futures<T>`: the registry object a pending promise owns. */
  class Futures<T, S, E, F> {
    var successFutures: seq<Future<S>>
    var errorFutures: seq<Future<E>>
    var finallyFutures: seq<FinallyFuture<F>>

    /** The three lists as a value. */
    ghost function Contents(): Entries<S, E, F>
      reads this
    {
      Entries(successFutures, errorFutures, finallyFutures)
    }

    constructor ()
      ensures Contents() == Entries([], [], [])
    {
      successFutures, errorFutures, finallyFutures := [], [], [];
    }

    method AppendSuccess(closure: S, queue: Option<Queue>)
      modifies this
      ensures successFutures == old(successFutures) + [Future(closure, queue)]
      ensures errorFutures == old(errorFutures) && finallyFutures == old(finallyFutures)
    {
      successFutures := successFutures + [Future(closure, queue)];
    }

    method AppendError(closure: E, queue: Option<Queue>)
      modifies this
      ensures errorFutures == old(errorFutures) + [Future(closure, queue)]
      ensures successFutures == old(successFutures) && finallyFutures == old(finallyFutures)
    {
      errorFutures := errorFutures + [Future(closure, queue)];
    }

    method AppendFinally(closure: F, queue: Option<Queue>)
      modifies this
      ensures finallyFutures == old(finallyFutures) + [FinallyFuture(closure, queue)]
      ensures successFutures == old(successFutures) && errorFutures == old(errorFutures)
    {
      finallyFutures := finallyFutures + [FinallyFuture(closure, queue)];
    }

    /** Drains the success and finally lists with `result`; the lists
        themselves are left as they are. */
    method Fulfill(result: T, queue: Option<Queue>) returns (work: seq<Dispatch<T, S, E, F>>)
      ensures work == OnFulfill(Contents(), result, queue)
    {
      work := CompleteFutures(successFutures, result, queue, MakeSuccess);
    }

    /** Drains the error and finally lists with `error`. */
    method Complete(error: Error, queue: Option<Queue>) returns (work: seq<Dispatch<T, S, E, F>>)
      ensures work == OnComplete(Contents(), error, queue)
    {
      work := CompleteFutures(errorFutures, error, queue, MakeFailure);
    }

    /** Dispatches each closure of one channel in order with `result`, each
        on its own queue or else on `queue`, then finalizes. */
    method CompleteFutures<U, C>(futures: seq<Future<C>>, result: U, queue: Option<Queue>,
                                 make: (C, U, Option<Queue>) -> Dispatch<T, S, E, F>)
      returns (work: seq<Dispatch<T, S, E, F>>)
      ensures work == Delivered(futures, result, queue, make) + Finalized(finallyFutures, queue)
    {
      work := [];
      var i := 0;
      while i < |futures|
        invariant 0 <= i <= |futures|
        invariant work == Delivered(futures[..i], result, queue, make)
      {
        var future := futures[i];
        var context := if future.queue.Some? then future.queue else queue;
        work := work + [make(future.closure, result, context)];
        i := i + 1;
        assert futures[..i][..i - 1] == futures[..i - 1];
      }
      assert futures[..i] == futures;
      var last := Finalize(queue);
      work := work + last;
    }

    /** Dispatches each finally closure in order, on its own queue or else
        on `queue`. */
    method Finalize(queue: Option<Queue>) returns (work: seq<Dispatch<T, S, E, F>>)
      ensures work == Finalized(finallyFutures, queue)
    {
      work := [];
      var i := 0;
      while i < |finallyFutures|
        invariant 0 <= i <= |finallyFutures|
        invariant work == Finalized(finallyFutures[..i], queue)
      {
        var future := finallyFutures[i];
        var context := if future.queue.Some? then future.queue else queue;
        work := work + [Finally(future.closure, context)];
        i := i + 1;
        assert finallyFutures[..i][..i - 1] == finallyFutures[..i - 1];
      }
      assert finallyFutures[..i] == finallyFutures;
    }
  }
}
