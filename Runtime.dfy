/** The world the promises live in: the closures they run and the queues
    they submit them to.

    Swift runs a closure either inline, nested inside the call that
    dispatched it, or by `queue.async`, later, on that queue. Here an inline
    closure is run by `World.Execute`, a worklist that runs nested work
    before the rest of the list, in the order nested calls would; a
    closure submitted to a queue is appended to `backlog`, and
    `World.RunSubmitted` runs one of them, as the queue eventually does.
    Running a user closure appends one event to `trace`; running one of the
    forwarding closures `then` creates completes the promise it forwards to. */
module Runtime {
  import opened Base
  import opened Registry
  import opened Promises

  /** A user closure that ran, with its argument and the queue it ran on
      (`None`: inline, on the thread that dispatched it). */
  datatype Event<T> =
    | SuccessRan(id: CallbackId, value: T, context: Option<Queue>)
    | ErrorRan(id: CallbackId, error: Error, context: Option<Queue>)
    | FinallyRan(id: CallbackId, context: Option<Queue>)

  /** A closure only refers to promises of the world; the promises `next`
      can return are among them. */
  ghost predicate SuccessIn<T(!new)>(c: SuccessCallback<T>, ps: set<Promise<T>>)
  {
    match c
    case OnValue(_) => true
    case ApplyNext(child, next) => child in ps && forall v :: next(v) in ps
    case ForwardValue(child) => child in ps
  }

  ghost predicate ErrorIn<T>(c: ErrorCallback<T>, ps: set<Promise<T>>)
  {
    match c
    case OnError(_) => true
    case ForwardError(child) => child in ps
  }

  ghost predicate EntriesIn<T(!new)>(r: Callbacks<T>, ps: set<Promise<T>>)
  {
    && (forall i | 0 <= i < |r.successFutures| :: SuccessIn(r.successFutures[i].closure, ps))
    && (forall i | 0 <= i < |r.errorFutures| :: ErrorIn(r.errorFutures[i].closure, ps))
  }

  ghost predicate WorkIn<T(!new)>(w: Work<T>, ps: set<Promise<T>>)
  {
    match w
    case Success(c, _, _) => SuccessIn(c, ps)
    case Failure(c, _, _) => ErrorIn(c, ps)
    case Finally(_, _) => true
  }

  ghost predicate AllWorkIn<T(!new)>(ws: seq<Work<T>>, ps: set<Promise<T>>)
  {
    forall i | 0 <= i < |ws| :: WorkIn(ws[i], ps)
  }

  /** Every dispatch delivers the error `e`, or is a finally closure: what a
      completion with `e` hands over. */
  predicate FailsWith<T>(ws: seq<Work<T>>, e: Error)
  {
    forall i | 0 <= i < |ws| :: (ws[i].Failure? && ws[i].error == e) || ws[i].Finally?
  }

  /** A dispatch of a closure the user registered, rather than one `then`
      created. */
  predicate IsUser<T>(w: Work<T>)
  {
    match w
    case Success(c, _, _) => c.OnValue?
    case Failure(c, _, _) => c.OnError?
    case Finally(_, _) => true
  }

  predicate AllUser<T>(ws: seq<Work<T>>)
  {
    forall i | 0 <= i < |ws| :: IsUser(ws[i])
  }

  /** The event running a user closure records. */
  function EventOf<T>(w: Work<T>): Event<T>
    requires IsUser(w)
  {
    match w
    case Success(c, v, context) => SuccessRan(c.id, v, context)
    case Failure(c, e, context) => ErrorRan(c.id, e, context)
    case Finally(id, context) => FinallyRan(id, context)
  }

  /** The events of the user dispatches that run inline, in order. */
  function Ran<T>(ws: seq<Work<T>>): seq<Event<T>>
    requires AllUser(ws)
  {
    if ws == [] then []
    else
      var last := ws[|ws| - 1];
      Ran(ws[..|ws| - 1]) + (if last.context.None? then [EventOf(last)] else [])
  }

  /** The dispatches submitted to a queue, in order. */
  function Submitted<T>(ws: seq<Work<T>>): seq<Work<T>>
  {
    if ws == [] then []
    else
      var last := ws[|ws| - 1];
      Submitted(ws[..|ws| - 1]) + (if last.context.Some? then [last] else [])
  }

  /** Running the next user dispatch of `ws` after a prefix extends the
      trace by that prefix's events, and the backlog by its submissions,
      to those of the longer prefix. */
  lemma RanStep<T>(ws: seq<Work<T>>, k: nat, t0: seq<Event<T>>, t1: seq<Event<T>>, t2: seq<Event<T>>,
                   b0: seq<Work<T>>, b1: seq<Work<T>>, b2: seq<Work<T>>)
    requires AllUser(ws) && k < |ws|
    requires t1 == t0 + Ran(ws[..k]) && t2 == t1 + (if ws[k].context.None? then [EventOf(ws[k])] else [])
    requires b1 == b0 + Submitted(ws[..k]) && b2 == b1 + (if ws[k].context.Some? then [ws[k]] else [])
    ensures t2 == t0 + Ran(ws[..k + 1]) && b2 == b0 + Submitted(ws[..k + 1]) && AllUser(ws[..k + 1])
  {
    assert ws[..k + 1][..k] == ws[..k];
  }

  lemma {:induction false} RanAppend<T>(a: seq<Work<T>>, b: seq<Work<T>>)
    requires AllUser(a + b)
    ensures AllUser(a) && AllUser(b)
    ensures Ran(a + b) == Ran(a) + Ran(b) && Submitted(a + b) == Submitted(a) + Submitted(b)
    decreases |b|
  {
    assert forall i | 0 <= i < |a| :: a[i] == (a + b)[i];
    assert forall i | 0 <= i < |b| :: b[i] == (a + b)[|a| + i];
    if b != [] {
      var n := |b| - 1;
      assert (a + b)[..|a + b| - 1] == a + b[..n];
      RanAppend(a, b[..n]);
    } else {
      assert a + b == a;
    }
  }

  /** Running `a` and then `b` extends the trace and the backlog by what
      running `a + b` does. */
  lemma RanThen<T>(a: seq<Work<T>>, b: seq<Work<T>>, t0: seq<Event<T>>, t1: seq<Event<T>>, t2: seq<Event<T>>,
                   b0: seq<Work<T>>, b1: seq<Work<T>>, b2: seq<Work<T>>)
    requires AllUser(a + b)
    requires AllUser(a) && t1 == t0 + Ran(a) && b1 == b0 + Submitted(a)
    requires AllUser(b) && t2 == t1 + Ran(b) && b2 == b1 + Submitted(b)
    ensures t2 == t0 + Ran(a + b) && b2 == b0 + Submitted(a + b)
  {
    RanAppend(a, b);
  }

  /** Running a dispatch that completes nothing leaves less to do: applying
      `next` costs more than the one forwarding dispatch it can produce,
      which costs more than a user closure. */
  function Cost<T>(w: Work<T>): nat
  {
    if w.Success? && w.successClosure.ApplyNext? then 3
    else if (w.Success? && w.successClosure.ForwardValue?) || (w.Failure? && w.errorClosure.ForwardError?) then 2
    else 1
  }

  function Weight<T>(ws: seq<Work<T>>): nat
  {
    if ws == [] then 0 else Cost(ws[0]) + Weight(ws[1..])
  }

  lemma {:induction false} WeightAppend<T>(a: seq<Work<T>>, b: seq<Work<T>>)
    ensures Weight(a + b) == Weight(a) + Weight(b)
  {
    if a != [] {
      assert (a + b)[0] == a[0] && (a + b)[1..] == a[1..] + b;
      WeightAppend(a[1..], b);
    } else {
      assert a + b == b;
    }
  }

  lemma {:induction false} SubsetSmaller<X>(a: set<X>, b: set<X>)
    requires a <= b
    ensures |a| <= |b|
    decreases a
  {
    if a != {} {
      var x :| x in a;
      SubsetSmaller(a - {x}, b - {x});
    }
  }

  lemma ProperSubsetSmaller<X>(a: set<X>, b: set<X>)
    requires a < b
    ensures |a| < |b|
  {
    var x :| x in b && x !in a;
    SubsetSmaller(a, b - {x});
  }

  /** Closedness does not depend on promises the closures do not name. */
  lemma EntriesGrow<T(!new)>(r: Callbacks<T>, ps: set<Promise<T>>, qs: set<Promise<T>>)
    requires EntriesIn(r, ps) && ps <= qs
    ensures EntriesIn(r, qs)
  {
    forall i | 0 <= i < |r.successFutures|
      ensures SuccessIn(r.successFutures[i].closure, qs)
    {
      assert SuccessIn(r.successFutures[i].closure, ps);
    }
  }

  /** Appending closed closures keeps a registry closed. */
  lemma EntriesAppend<T(!new)>(r: Callbacks<T>, ps: set<Promise<T>>, s: SuccessCallback<T>, e: ErrorCallback<T>, queue: Option<Queue>)
    requires EntriesIn(r, ps) && SuccessIn(s, ps) && ErrorIn(e, ps)
    ensures EntriesIn(r.(successFutures := r.successFutures + [Future(s, queue)]), ps)
    ensures EntriesIn(r.(errorFutures := r.errorFutures + [Future(e, queue)]), ps)
    ensures EntriesIn(r.(successFutures := r.successFutures + [Future(s, queue)],
                         errorFutures := r.errorFutures + [Future(e, queue)]), ps)
  {
  }

  /** Fulfilling a closed registry hands over closed dispatches. */
  lemma FulfillDrainsIn<T(!new)>(r: Callbacks<T>, ps: set<Promise<T>>, value: T, queue: Option<Queue>)
    requires EntriesIn(r, ps)
    ensures AllWorkIn(OnFulfill(r, value, queue), ps)
  {
    var d := OnFulfill(r, value, queue);
    var n := |r.successFutures|;
    FulfillOrder(r, value, queue);
    forall i | 0 <= i < |d|
      ensures WorkIn(d[i], ps)
    {
      if i < n {
        assert SuccessIn(r.successFutures[i].closure, ps);
      } else {
        var j := i - n;
        assert d[n + j] == Finally(r.finallyFutures[j].closure, Resolve(r.finallyFutures[j].queue, queue));
      }
    }
  }

  /** Completing a closed registry with `e` hands over closed dispatches,
      each an error-`e` or a finally dispatch. */
  lemma CompleteDrainsIn<T(!new)>(r: Callbacks<T>, ps: set<Promise<T>>, error: Error, queue: Option<Queue>)
    requires EntriesIn(r, ps)
    ensures AllWorkIn(OnComplete(r, error, queue), ps)
    ensures FailsWith(OnComplete(r, error, queue), error)
  {
    var d := OnComplete<T, SuccessCallback<T>, ErrorCallback<T>, CallbackId>(r, error, queue);
    var n := |r.errorFutures|;
    CompleteOrder<T, SuccessCallback<T>, ErrorCallback<T>, CallbackId>(r, error, queue);
    forall i | 0 <= i < |d|
      ensures WorkIn(d[i], ps) && ((d[i].Failure? && d[i].error == error) || d[i].Finally?)
    {
      if i < n {
        assert ErrorIn(r.errorFutures[i].closure, ps);
      } else {
        var j := i - n;
        assert d[n + j] == Finally(r.finallyFutures[j].closure, Resolve(r.finallyFutures[j].queue, queue));
      }
    }
  }

  /** Between two snapshots of the promises' states: the same promises,
      and every completed promise kept its state. */
  ghost predicate Advanced<T>(a: map<Promise<T>, State<T>>, b: map<Promise<T>, State<T>>)
  {
    a.Keys == b.Keys && forall p | p in a && !a[p].Pending? :: b[p] == a[p]
  }

  /** Between two snapshots: the only changes are pending promises
      rejected with `e`. */
  ghost predicate OnlyRejected<T>(a: map<Promise<T>, State<T>>, b: map<Promise<T>, State<T>>, e: Error)
  {
    a.Keys == b.Keys && forall p | p in a :: b[p] == a[p] || (a[p].Pending? && b[p] == Rejected(e))
  }

  lemma AdvancedTrans<T>(a: map<Promise<T>, State<T>>, b: map<Promise<T>, State<T>>, c: map<Promise<T>, State<T>>)
    requires Advanced(a, b) && Advanced(b, c)
    ensures Advanced(a, c)
  {
  }

  lemma OnlyRejectedTrans<T>(a: map<Promise<T>, State<T>>, b: map<Promise<T>, State<T>>, c: map<Promise<T>, State<T>>, e: Error)
    requires OnlyRejected(a, b, e) && OnlyRejected(b, c, e)
    ensures OnlyRejected(a, c, e)
  {
  }

  /** The promises a snapshot shows pending. */
  ghost function PendingIn<T>(a: map<Promise<T>, State<T>>): set<Promise<T>>
  {
    set p | p in a && a[p].Pending?
  }

  /** Completing a pending promise, and moving no completed one, leaves
      fewer promises pending. */
  lemma CompletingShrinks<T>(a: map<Promise<T>, State<T>>, b: map<Promise<T>, State<T>>, c: Promise<T>)
    requires Advanced(a, b) && c in a && a[c].Pending? && !b[c].Pending?
    ensures |PendingIn(b)| < |PendingIn(a)|
  {
    assert PendingIn(b) < PendingIn(a) by {
      assert c in PendingIn(a) && c !in PendingIn(b);
    }
    ProperSubsetSmaller(PendingIn(b), PendingIn(a));
  }

  /** Between two snapshots, every promise of `chain` went through a
      cancelling completion: rejected with `Cancelled` if it was pending,
      unchanged otherwise. */
  ghost predicate CancelledIn<T>(a: map<Promise<T>, State<T>>, b: map<Promise<T>, State<T>>, chain: set<Promise<T>>)
  {
    forall q | q in chain :: q in a && q in b && b[q] == Settle(a[q], WithError(Cancelled))
  }

  /** Completing `p` with `Cancelled` after its chain was cancelled cancels
      the chain extended with `p`. */
  lemma CancelledExtend<T>(a: map<Promise<T>, State<T>>, b: map<Promise<T>, State<T>>, c: map<Promise<T>, State<T>>,
                           chain: set<Promise<T>>, p: Promise<T>)
    requires CancelledIn(a, b, chain) && OnlyRejected(a, b, Cancelled) && Advanced(b, c)
    requires p in a && p in c && c[p] == Settle(b[p], WithError(Cancelled))
    ensures CancelledIn(a, c, chain + {p})
  {
  }

  /** An inline dispatch of the closure that forwards an error into the
      promise `then` returned: running it completes that promise. */
  predicate ForwardsError<T>(w: Work<T>)
  {
    w.Failure? && w.errorClosure.ForwardError? && w.context.None?
  }

  /** Between two snapshots, the target of every inline error forward of
      `ws` went through a completion with `e`: rejected with `e` if it was
      pending, unchanged otherwise. */
  ghost predicate ErrorsForwarded<T>(a: map<Promise<T>, State<T>>, b: map<Promise<T>, State<T>>, ws: seq<Work<T>>, e: Error)
  {
    forall i | 0 <= i < |ws| && ForwardsError(ws[i]) ::
      && ws[i].errorClosure.child in a && ws[i].errorClosure.child in b
      && b[ws[i].errorClosure.child] == Settle(a[ws[i].errorClosure.child], WithError(e))
  }

  /** Forwarded errors stay: a completed promise never moves again. */
  lemma ForwardedLater<T>(a: map<Promise<T>, State<T>>, b: map<Promise<T>, State<T>>, c: map<Promise<T>, State<T>>,
                          ws: seq<Work<T>>, e: Error)
    requires ErrorsForwarded(a, b, ws, e) && Advanced(b, c)
    ensures ErrorsForwarded(a, c, ws, e)
  {
  }

  /** Forwarding `e` after other promises were only rejected with `e`
      forwards it from the earlier snapshot too. */
  lemma ForwardedEarlier<T>(a: map<Promise<T>, State<T>>, b: map<Promise<T>, State<T>>, c: map<Promise<T>, State<T>>,
                            ws: seq<Work<T>>, e: Error)
    requires OnlyRejected(a, b, e) && ErrorsForwarded(b, c, ws, e)
    ensures ErrorsForwarded(a, c, ws, e)
  {
  }

  /** `t` is the end of `s`. */
  ghost predicate EndsWith<T>(s: seq<T>, t: seq<T>)
  {
    |t| <= |s| && s[|s| - |t|..] == t
  }

  /** Every inline error forward of `ws` is still waiting in `todo`, or its
      target is settled in `st`. */
  ghost predicate ForwardedOrWaiting<T>(ws: seq<Work<T>>, todo: seq<Work<T>>, st: map<Promise<T>, State<T>>)
  {
    forall i | 0 <= i < |ws| && ForwardsError(ws[i]) ::
      ws[i] in todo || (ws[i].errorClosure.child in st && !st[ws[i].errorClosure.child].Pending?)
  }

  /** Running the head of `todo`, which leaves the rest of `todo` at the end
      of the new list and settles the target of an inline error forward,
      keeps every error forward of `ws` waiting or done. */
  lemma WaitingStep<T>(ws: seq<Work<T>>, todo: seq<Work<T>>, next: seq<Work<T>>,
                       b: map<Promise<T>, State<T>>, c: map<Promise<T>, State<T>>)
    requires todo != [] && ForwardedOrWaiting(ws, todo, b) && EndsWith(next, todo[1..]) && Advanced(b, c)
    requires ForwardsError(todo[0]) ==> var t := todo[0].errorClosure.child; t in c && !c[t].Pending?
    ensures ForwardedOrWaiting(ws, next, c)
  {
    forall i | 0 <= i < |ws| && ForwardsError(ws[i]) && ws[i] in todo && ws[i] != todo[0]
      ensures ws[i] in next
    {
      var j :| 0 <= j < |todo| && todo[j] == ws[i];
      assert todo[1..][j - 1] == ws[i];
      assert next[|next| - (|todo| - 1) + (j - 1)] == ws[i];
    }
  }

  /** Once nothing waits, a run that only rejected promises with `e` forwarded
      `e` to the target of every inline error forward of `ws`. */
  lemma ForwardedAll<T>(ws: seq<Work<T>>, a: map<Promise<T>, State<T>>, b: map<Promise<T>, State<T>>, e: Error)
    requires ForwardedOrWaiting(ws, [], b) && OnlyRejected(a, b, e)
    ensures ErrorsForwarded(a, b, ws, e)
  {
  }

  /** Two snapshots of the upstream links agree on every promise of rank at
      most `n`. */
  ghost predicate AgreeBelow<T>(a: map<Promise<T>, (Promise?<T>, nat)>, b: map<Promise<T>, (Promise?<T>, nat)>, n: nat)
  {
    a.Keys == b.Keys && forall q | q in a && a[q].1 <= n :: b[q] == a[q]
  }

  class World<T(!new)> {
    /** The user closures that ran, in order. */
    var trace: seq<Event<T>>
    /** Dispatches submitted to a queue and not yet run. */
    var backlog: seq<Work<T>>
    ghost var promises: set<Promise<T>>
    ghost var registries: set<Futures<T, SuccessCallback<T>, ErrorCallback<T>, CallbackId>>
    /** The rank the next promise gets. */
    ghost var clock: nat

    /** Every upstream is an older promise of the world. */
    ghost predicate Ranked()
      reads this`promises, promises`littlePromise
    {
      forall p | p in promises ::
        p.littlePromise != null ==> p.littlePromise in promises && p.littlePromise.rank < p.rank
    }

    /** Every promise is consistent, older than the clock, and owns a
        registry of the world while it has one. */
    ghost predicate Owned()
      reads this`promises, this`registries, this`clock
      reads promises`result, promises`error, promises`futures
    {
      forall p | p in promises :: p.Valid() && p.rank < clock && (p.futures != null ==> p.futures in registries)
    }

    /** Every registered closure refers to promises of the world only. */
    ghost predicate Linked()
      reads this`promises, this`registries, registries
    {
      forall r | r in registries :: EntriesIn(r.Contents(), promises)
    }

    ghost predicate Closed()
      reads this`promises, this`registries, this`clock, promises, registries
    {
      Ranked() && Owned() && Linked()
    }

    ghost predicate Valid()
      reads this`promises, this`registries, this`clock, this`backlog, promises, registries
    {
      Closed() && AllWorkIn(backlog, promises)
    }

    /** The promises still pending: each completion removes one. */
    ghost function PendingSet(): set<Promise<T>>
      reads this`promises, promises`result, promises`error
    {
      PendingIn(States())
    }

    /** Every upstream of `p`, transitively. */
    ghost function Upstream(p: Promise<T>): (chain: set<Promise<T>>)
      requires Ranked() && p in promises
      reads this`promises, promises`littlePromise
      ensures forall q | q in chain :: q in promises && q.rank < p.rank
      decreases p.rank
    {
      if p.littlePromise == null then {} else {p.littlePromise} + Upstream(p.littlePromise)
    }

    /** What cancelling `p` hands over, in order: first what cancelling its
        upstream hands over, then the drain of `p` itself if it is still
        pending. */
    ghost function CancelDrain(p: Promise<T>): seq<Work<T>>
      requires Closed() && p in promises
      reads this`promises, this`registries, this`clock, promises, registries
      decreases p.rank, 1
    {
      UpstreamDrain(p) + (if p.IsPending() then OnComplete(p.Registry(), Cancelled, None) else [])
    }

    /** What cancelling the upstream of `p` hands over. */
    ghost function UpstreamDrain(p: Promise<T>): seq<Work<T>>
      requires Closed() && p in promises
      reads this`promises, this`registries, this`clock, promises, registries
      decreases p.rank, 0
    {
      if p.littlePromise == null then [] else CancelDrain(p.littlePromise)
    }

    /** The state of every promise, as a value. */
    ghost function States(): map<Promise<T>, State<T>>
      reads this`promises, promises`result, promises`error
    {
      map p | p in promises :: p.State()
    }

    /** The upstream and the rank of every promise, as a value. */
    ghost function Links(): map<Promise<T>, (Promise?<T>, nat)>
      reads this`promises, promises`littlePromise
    {
      map p | p in promises :: (p.littlePromise, p.rank)
    }

    /** Running closures adds no promise, never moves a completed promise
        and never rewires an upstream; the trace only grows. */
    twostate predicate Progressed()
      reads this, promises
    {
      && promises == old(promises) && registries == old(registries) && clock == old(clock)
      && old(trace) <= trace
      && Links() == old(Links())
      && Advanced(old(States()), States())
    }

    /** No promise changed state. */
    twostate predicate Still()
      reads this, promises
    {
      States() == old(States())
    }

    /** The only state changes are pending promises rejected with `e`. */
    twostate predicate RejectedOnlyWith(e: Error)
      reads this, promises
    {
      OnlyRejected(old(States()), States(), e)
    }

    constructor ()
      ensures Valid() && trace == [] && backlog == [] && promises == {} && registries == {}
    {
      trace, backlog := [], [];
      promises, registries, clock := {}, {}, 0;
    }

    /** Running a user closure records it and changes nothing else. */
    method RunUser(item: Work<T>)
      requires IsUser(item)
      modifies this`trace
      ensures trace == old(trace) + [EventOf(item)]
    {
      var event := EventOf(item);
      trace := trace + [event];
    }

    /** `fulfill(with:in:)` on the promise alone: it settles `p` and hands
        over its drain, which the caller then runs. */
    method SettleWithValue(p: Promise<T>, value: T, queue: Option<Queue>) returns (work: seq<Work<T>>)
      requires Valid() && p in promises
      modifies p
      ensures Valid() && Progressed()
      ensures p.State() == Settle(old(p.State()), WithResult(value))
      ensures work == if old(p.IsPending()) then OnFulfill(old(p.Registry()), value, queue) else []
      ensures !old(p.IsPending()) ==> unchanged(promises)
      ensures AllWorkIn(work, promises)
    {
      FulfillDrainsIn(p.Registry(), promises, value, queue);
      work := p.Fulfill(value, queue);
    }

    /** `complete(with:in:)` on the promise alone: the error channel's
        counterpart of `SettleWithValue`. */
    method SettleWithError(p: Promise<T>, error: Error, queue: Option<Queue>) returns (work: seq<Work<T>>)
      requires Valid() && p in promises
      modifies p
      ensures Valid() && Progressed() && RejectedOnlyWith(error)
      ensures p.State() == Settle(old(p.State()), WithError(error))
      ensures work == if old(p.IsPending()) then OnComplete(old(p.Registry()), error, queue) else []
      ensures !old(p.IsPending()) ==> unchanged(promises)
      ensures AllWorkIn(work, promises) && FailsWith(work, error)
    {
      CompleteDrainsIn(p.Registry(), promises, error, queue);
      work := p.Complete(error, queue);
    }

    /** The success closure `registerNext` appends to the source: it applies
        `next` to the source's result and hooks `child` to the promise that
        returns, inline. A completed promise hands one forwarding dispatch
        back at once; a pending one registers the two forwarding closures,
        with no queue. No promise changes state. */
    method RunApplyNext(child: Promise<T>, next: T -> Promise<T>, value: T) returns (more: seq<Work<T>>)
      requires Valid() && child in promises && forall v :: next(v) in promises
      modifies next(value).futures
      ensures Valid() && Progressed() && Still()
      ensures next(value).State().Fulfilled? ==> more == [Success(ForwardValue(child), next(value).State().value, None)]
      ensures next(value).State().Rejected? ==> more == [Failure(ForwardError(child), next(value).State().error, None)]
      ensures next(value).State().Pending? ==> more == []
      ensures next(value).State().Pending? ==>
                (var r := old(next(value).Registry());
                 next(value).Registry() == r.(successFutures := r.successFutures + [Future(ForwardValue(child), None)],
                                              errorFutures := r.errorFutures + [Future(ForwardError(child), None)]))
      ensures AllWorkIn(more, promises) && Weight(more) < 3
    {
      var inner := next(value);
      EntriesAppend(inner.Registry(), promises, ForwardValue(child), ForwardError(child), None);
      var onValue := inner.OnSuccess(None, ForwardValue(child));
      var onError := inner.OnError(None, ForwardError(child));
      more := onValue + onError;
      RegistryChanged(inner.futures);
    }

    /** Changing the closures of one registry, and nothing else, keeps the
        world valid, every promise's state and every link, as long as the
        new closures name promises of the world only. */
    twostate lemma RegistryChanged(r: Futures?<T, SuccessCallback<T>, ErrorCallback<T>, CallbackId>)
      requires old(Valid()) && promises == old(promises) && registries == old(registries)
      requires clock == old(clock) && backlog == old(backlog)
      requires forall p | p in promises :: unchanged(p)
      requires forall q | q in registries && q != r :: unchanged(q)
      requires r != null ==> EntriesIn(r.Contents(), promises)
      ensures Valid() && States() == old(States()) && Links() == old(Links())
    {
      forall q | q in registries
        ensures EntriesIn(q.Contents(), promises)
      {
        if q != r {
          assert q.Contents() == old(q.Contents());
        }
      }
    }

    /** Running one dispatch. Either some pending promise completes, or
        what it hands back weighs less than the dispatch itself. */
    method Invoke(item: Work<T>) returns (more: seq<Work<T>>)
      requires Valid() && WorkIn(item, promises)
      modifies this`trace, promises, registries
      ensures Valid() && Progressed() && AllWorkIn(more, promises)
      ensures |PendingSet()| < |old(PendingSet())| || (PendingSet() == old(PendingSet()) && Weight(more) < Cost(item))
      ensures IsUser(item) ==> trace == old(trace) + [EventOf(item)] && more == [] && unchanged(promises, registries)
      ensures !IsUser(item) ==> trace == old(trace)
      ensures item.Failure? ==> RejectedOnlyWith(item.error) && FailsWith(more, item.error)
      ensures item.Success? && item.successClosure.ForwardValue? ==>
                var child := item.successClosure.child;
                && child.State() == Settle(old(child.State()), WithResult(item.value))
                && more == if old(child.IsPending()) then OnFulfill(old(child.Registry()), item.value, None) else []
      ensures item.Failure? && item.errorClosure.ForwardError? ==>
                var child := item.errorClosure.child;
                && child.State() == Settle(old(child.State()), WithError(item.error))
                && more == if old(child.IsPending()) then OnComplete(old(child.Registry()), item.error, None) else []
      ensures item.Success? && item.successClosure.ApplyNext? ==>
                var inner := item.successClosure.next(item.value);
                && Still()
                && (inner.State().Fulfilled? ==> more == [Success(ForwardValue(item.successClosure.child), inner.State().value, None)])
                && (inner.State().Rejected? ==> more == [Failure(ForwardError(item.successClosure.child), inner.State().error, None)])
                && (inner.State().Pending? ==> more == [])
                && (inner.State().Pending? ==>
                      var r := old(inner.Registry());
                      inner.Registry() == r.(successFutures := r.successFutures + [Future(ForwardValue(item.successClosure.child), None)],
                                             errorFutures := r.errorFutures + [Future(ForwardError(item.successClosure.child), None)]))
    {
      if IsUser(item) {
        RunUser(item);
        more := [];
      } else if item.Success? && item.successClosure.ForwardValue? {
        more := RunForwardValue(item.successClosure.child, item.value);
      } else if item.Success? {
        more := RunApplyNext(item.successClosure.child, item.successClosure.next, item.value);
      } else {
        more := RunForwardError(item.errorClosure.child, item.error);
      }
    }

    /** The success closure `registerNext` hooks to the promise `next`
        returned: it fulfills `child`, which either completes a pending
        promise or hands back nothing. */
    method RunForwardValue(child: Promise<T>, value: T) returns (more: seq<Work<T>>)
      requires Valid() && child in promises
      modifies child
      ensures Valid() && Progressed() && AllWorkIn(more, promises)
      ensures |PendingSet()| < |old(PendingSet())| || (PendingSet() == old(PendingSet()) && more == [])
      ensures child.State() == Settle(old(child.State()), WithResult(value))
      ensures more == if old(child.IsPending()) then OnFulfill(old(child.Registry()), value, None) else []
    {
      ghost var wasPending := child.IsPending();
      ghost var before := States();
      more := SettleWithValue(child, value, None);
      if wasPending {
        CompletingShrinks(before, States(), child);
      } else {
        assert Still();
      }
    }

    /** The error closure `registerNext` appends to the source, and the one
        it hooks to the promise `next` returned: it completes `child`. */
    method RunForwardError(child: Promise<T>, error: Error) returns (more: seq<Work<T>>)
      requires Valid() && child in promises
      modifies child
      ensures Valid() && Progressed() && RejectedOnlyWith(error) && AllWorkIn(more, promises) && FailsWith(more, error)
      ensures |PendingSet()| < |old(PendingSet())| || (PendingSet() == old(PendingSet()) && more == [])
      ensures child.State() == Settle(old(child.State()), WithError(error))
      ensures more == if old(child.IsPending()) then OnComplete(old(child.Registry()), error, None) else []
    {
      ghost var wasPending := child.IsPending();
      ghost var before := States();
      more := SettleWithError(child, error, None);
      if wasPending {
        CompletingShrinks(before, States(), child);
      } else {
        assert Still();
      }
    }

    /** `queue.async { ... }`: the dispatch waits in the backlog. */
    method Submit(item: Work<T>)
      requires Valid() && WorkIn(item, promises)
      modifies this`backlog
      ensures Valid() && Progressed() && Still() && backlog == old(backlog) + [item]
    {
      backlog := backlog + [item];
    }

    /** One step of `Execute`: the first dispatch is submitted to its queue
        or run inline, and what it hands back goes before the rest. */
    method Step(todo: seq<Work<T>>, ghost cause: Option<Error>) returns (next: seq<Work<T>>)
      requires todo != [] && Valid() && AllWorkIn(todo, promises)
      requires cause.Some? ==> FailsWith(todo, cause.value)
      modifies this`trace, this`backlog, promises, registries
      ensures Valid() && Progressed() && AllWorkIn(next, promises) && old(backlog) <= backlog
      ensures cause.Some? ==> FailsWith(next, cause.value) && RejectedOnlyWith(cause.value)
      ensures |PendingSet()| < |old(PendingSet())| || (PendingSet() == old(PendingSet()) && Weight(next) < Weight(todo))
      ensures IsUser(todo[0]) && todo[0].context.None? ==>
                && next == todo[1..] && unchanged(promises, registries) && trace == old(trace) + [EventOf(todo[0])]
      ensures todo[0].context.Some? ==> && next == todo[1..] && unchanged(promises, registries)
                                        && trace == old(trace) && backlog == old(backlog) + [todo[0]]
      ensures todo[0].context.None? ==> backlog == old(backlog)
      ensures EndsWith(next, todo[1..])
      ensures ForwardsError(todo[0]) ==>
                var child := todo[0].errorClosure.child;
                && child in States() && States()[child] == Settle(old(States())[child], WithError(todo[0].error))
                && !States()[child].Pending?
    {
      var item := todo[0];
      var rest := todo[1..];
      assert WorkIn(item, promises);
      if item.context.Some? {
        Submit(item);
        next := rest;
      } else {
        var more := Invoke(item);
        WeightAppend(more, rest);
        next := more + rest;
      }
    }

    /** Runs `work` the way nested Swift calls run it: each inline dispatch
        runs, and what it hands back runs before the rest; a dispatch with a
        queue is submitted to it. A list of user dispatches adds the events
        of the inline ones to the trace and submits the others, in order,
        and changes no promise. */
    method Execute(work: seq<Work<T>>, ghost cause: Option<Error>)
      requires Valid() && AllWorkIn(work, promises)
      requires cause.Some? ==> FailsWith(work, cause.value)
      modifies this`trace, this`backlog, promises, registries
      ensures Valid() && Progressed() && old(backlog) <= backlog
      ensures cause.Some? ==> RejectedOnlyWith(cause.value) && ErrorsForwarded(old(States()), States(), work, cause.value)
      ensures AllUser(work) ==> && unchanged(promises, registries)
                                && trace == old(trace) + Ran(work) && backlog == old(backlog) + Submitted(work)
    {
      var todo := work;
      ghost var done := 0;
      ghost var userOnly := AllUser(work);
      while todo != []
        invariant Valid() && AllWorkIn(todo, promises) && Progressed() && old(backlog) <= backlog
        invariant cause.Some? ==> && FailsWith(todo, cause.value) && RejectedOnlyWith(cause.value)
                                  && ForwardedOrWaiting(work, todo, States())
        invariant userOnly ==> && done <= |work| && todo == work[done..] && unchanged(promises, registries)
                                && AllUser(work[..done])
                                && trace == old(trace) + Ran(work[..done])
                                && backlog == old(backlog) + Submitted(work[..done])
        decreases |PendingSet()|, Weight(todo)
      {
        ghost var trace1, backlog1, states1 := trace, backlog, States();
        ghost var todo1 := todo;
        todo := Step(todo, cause);
        AdvancedTrans(old(States()), states1, States());
        if cause.Some? {
          WaitingStep(work, todo1, todo, states1, States());
        }
        if userOnly {
          RanStep(work, done, old(trace), trace1, trace, old(backlog), backlog1, backlog);
        }
        done := done + 1;
      }
      if cause.Some? {
        ForwardedAll(work, old(States()), States(), cause.value);
      }
      if userOnly {
        assert work[..done] == work;
      }
    }

    /** The upstream chain of `p` only depends on the links of promises no
        younger than `p`. */
    twostate lemma UpstreamAgrees(p: Promise<T>)
      requires old(Ranked()) && Ranked() && p in old(promises) && promises == old(promises)
      requires AgreeBelow(old(Links()), Links(), p.rank)
      ensures Upstream(p) == old(Upstream(p))
      decreases p.rank
    {
      assert old(Links())[p] == Links()[p];
      if p.littlePromise != null {
        var up := p.littlePromise;
        assert old(Links())[up] == Links()[up];
        UpstreamAgrees(up);
      }
    }

    /** A user dispatch handed back by `onSuccess`, `onError` or `finally`:
        `queue?.async { closure() } ?? closure()`. */
    method Deliver(item: Work<T>)
      requires Valid() && IsUser(item) && WorkIn(item, promises)
      modifies this`trace, this`backlog
      ensures Valid() && Progressed() && Still()
      ensures item.context.None? ==> trace == old(trace) + [EventOf(item)] && backlog == old(backlog)
      ensures item.context.Some? ==> trace == old(trace) && backlog == old(backlog) + [item]
    {
      if item.context.Some? {
        Submit(item);
      } else {
        RunUser(item);
      }
    }

    /** `onSuccess(in:_:)` with a user closure: on a fulfilled promise the
        closure runs at once, on `queue` or inline; otherwise it waits in
        the promise's registry, if the promise still has one. */
    method OnSuccess(p: Promise<T>, queue: Option<Queue>, id: CallbackId)
      requires Valid() && p in promises
      modifies this`trace, this`backlog, p.futures
      ensures Valid() && Progressed() && Still()
      ensures p.State().Fulfilled? ==>
                && p.Registry() == old(p.Registry())
                && (queue.None? ==> trace == old(trace) + [SuccessRan(id, p.State().value, None)] && backlog == old(backlog))
                && (queue.Some? ==> trace == old(trace) && backlog == old(backlog) + [Success(SuccessCallback.OnValue(id), p.State().value, queue)])
      ensures !p.State().Fulfilled? ==> trace == old(trace) && backlog == old(backlog)
      ensures !p.State().Fulfilled? && p.futures != null ==>
                p.Registry() == old(p.Registry()).(successFutures := old(p.Registry()).successFutures + [Future(SuccessCallback.OnValue(id), queue)])
    {
      EntriesAppend(p.Registry(), promises, SuccessCallback.OnValue(id), ErrorCallback.OnError(id), queue);
      var work := p.OnSuccess(queue, SuccessCallback.OnValue(id));
      assert States() == old(States()) && Links() == old(Links());
      forall r | r in registries
        ensures EntriesIn(r.Contents(), promises)
      {
        if r != p.futures {
          assert r.Contents() == old(r.Contents());
        }
      }
      if work != [] {
        Deliver(work[0]);
      }
    }

    /** `onError(in:_:)` with a user closure: the error channel's
        counterpart of `OnSuccess`. */
    method OnError(p: Promise<T>, queue: Option<Queue>, id: CallbackId)
      requires Valid() && p in promises
      modifies this`trace, this`backlog, p.futures
      ensures Valid() && Progressed() && Still()
      ensures p.State().Rejected? ==>
                && p.Registry() == old(p.Registry())
                && (queue.None? ==> trace == old(trace) + [ErrorRan(id, p.State().error, None)] && backlog == old(backlog))
                && (queue.Some? ==> trace == old(trace) && backlog == old(backlog) + [Failure(ErrorCallback.OnError(id), p.State().error, queue)])
      ensures !p.State().Rejected? ==> trace == old(trace) && backlog == old(backlog)
      ensures !p.State().Rejected? && p.futures != null ==>
                p.Registry() == old(p.Registry()).(errorFutures := old(p.Registry()).errorFutures + [Future(ErrorCallback.OnError(id), queue)])
    {
      EntriesAppend(p.Registry(), promises, SuccessCallback.OnValue(id), ErrorCallback.OnError(id), queue);
      var work := p.OnError(queue, ErrorCallback.OnError(id));
      assert States() == old(States()) && Links() == old(Links());
      forall r | r in registries
        ensures EntriesIn(r.Contents(), promises)
      {
        if r != p.futures {
          assert r.Contents() == old(r.Contents());
        }
      }
      if work != [] {
        Deliver(work[0]);
      }
    }

    /** `finally(in:_:)`: on a completed promise, either way, the closure
        runs at once; on a pending one it waits in the finally list. */
    method Finally(p: Promise<T>, queue: Option<Queue>, id: CallbackId)
      requires Valid() && p in promises
      modifies this`trace, this`backlog, p.futures
      ensures Valid() && Progressed() && Still()
      ensures !p.IsPending() ==>
                && p.Registry() == old(p.Registry())
                && (queue.None? ==> trace == old(trace) + [FinallyRan(id, None)] && backlog == old(backlog))
                && (queue.Some? ==> trace == old(trace) && backlog == old(backlog) + [Dispatch.Finally(id, queue)])
      ensures p.IsPending() ==>
                && trace == old(trace) && backlog == old(backlog)
                && p.Registry() == old(p.Registry()).(finallyFutures := old(p.Registry()).finallyFutures + [FinallyFuture(id, queue)])
    {
      var work := p.Finally(queue, id);
      assert States() == old(States()) && Links() == old(Links());
      forall r | r in registries
        ensures EntriesIn(r.Contents(), promises)
      {
        if r != p.futures {
          assert r.Contents() == old(r.Contents());
        }
      }
      if work != [] {
        Deliver(work[0]);
      }
    }

    /** `then(in:_:)`. On a fulfilled promise: what `next` returns for the
        result, at once; on a rejected one: a new promise rejected with the
        same error; on a pending one: a new pending child whose upstream is
        `p`, with the two forwarding closures appended to `p`'s registry.
        Nothing runs. */
    method Then(p: Promise<T>, queue: Option<Queue>, next: T -> Promise<T>) returns (r: Promise<T>)
      requires Valid() && p in promises && forall v :: next(v) in promises
      modifies this`promises, this`registries, this`clock, p.futures
      ensures Valid() && r in promises && trace == old(trace) && backlog == old(backlog)
      ensures forall q | q in old(promises) :: q.State() == old(q.State()) && q.littlePromise == old(q.littlePromise)
      ensures p.State().Fulfilled? ==> r == next(p.State().value) && promises == old(promises) && p.Registry() == old(p.Registry())
                                       && registries == old(registries)
      ensures !p.State().Fulfilled? ==> r.futures != null && fresh(r.futures) && registries == old(registries) + {r.futures}
                                        && r.rank == old(clock) && clock == old(clock) + 1
      ensures p.State().Rejected? ==> && fresh(r) && promises == old(promises) + {r} && p.Registry() == old(p.Registry())
                                      && r.State() == p.State() && r.littlePromise == null && r.Registry() == Entries([], [], [])
      ensures p.State().Pending? ==>
                && fresh(r) && promises == old(promises) + {r}
                && r.State() == Pending && r.littlePromise == p && r.Registry() == Entries([], [], [])
                && p.Registry() == old(p.Registry()).(successFutures := old(p.Registry()).successFutures + [Future(ApplyNext(r, next), queue)],
                                                      errorFutures := old(p.Registry()).errorFutures + [Future(ForwardError(r), queue)])
    {
      r := p.Then(queue, next, clock);
      if !p.State().Fulfilled? {
        forall q | q in registries
          ensures EntriesIn(q.Contents(), promises + {r})
        {
          EntriesGrow(old(q.Contents()), promises, promises + {r});
          if q == p.futures {
            EntriesAppend(old(q.Contents()), promises + {r}, ApplyNext(r, next), ForwardError(r), queue);
          }
        }
        promises := promises + {r};
        registries := registries + {r.futures};
        clock := clock + 1;
        Joined(r);
      }
    }

    /** A new promise joining the world, with its registry and the next
        rank, keeps it valid when no promise of the world changed and every
        registry names promises of the world only. */
    twostate lemma Joined(new r: Promise<T>)
      requires old(Valid()) && r !in old(promises) && r.futures != null
      requires promises == old(promises) + {r} && registries == old(registries) + {r.futures}
      requires clock == old(clock) + 1 && r.rank == old(clock) && backlog == old(backlog)
      requires r.Valid() && (r.littlePromise != null ==> r.littlePromise in old(promises))
      requires forall q | q in old(promises) :: unchanged(q)
      requires forall q | q in registries :: EntriesIn(q.Contents(), promises)
      ensures Valid()
    {
      forall i | 0 <= i < |backlog|
        ensures WorkIn(backlog[i], promises)
      {
        assert WorkIn(backlog[i], old(promises));
      }
    }

    /** `cancel()`: cancels the upstream chain first, then completes `p`
        with `PromiseFailure.cancelled`. Every promise of the chain and `p`
        itself ends up rejected, with `Cancelled` if it was still pending;
        the only state changes are such rejections. When the closures the
        chain hands over are all user closures, they run in the order of
        `CancelDrain`, and nothing else changes. */
    method Cancel(p: Promise<T>)
      requires Valid() && p in promises
      modifies this`trace, this`backlog, promises, registries
      ensures Valid() && Progressed() && RejectedOnlyWith(Cancelled)
      ensures CancelledIn(old(States()), States(), old(Upstream(p)) + {p})
      ensures AllUser(old(CancelDrain(p))) ==>
                && unchanged(registries) && (forall q | q in old(promises) && q !in old(Upstream(p)) + {p} :: unchanged(q))
                && trace == old(trace) + Ran(old(CancelDrain(p)))
                && backlog == old(backlog) + Submitted(old(CancelDrain(p)))
      decreases p.rank, 1
    {
      ghost var states0, chain := States(), Upstream(p);
      ghost var trace0, backlog0 := trace, backlog;
      ghost var pending, registry := p.IsPending(), p.Registry();
      ghost var head, tail := UpstreamDrain(p), if pending then OnComplete(registry, Cancelled, None) else [];
      ghost var userOnly := AllUser(head + tail);
      assert CancelDrain(p) == head + tail;
      if userOnly {
        RanAppend(head, tail);
      }
      CancelUpstream(p);
      if userOnly {
        assert p !in chain;
        assert p.IsPending() == pending && p.Registry() == registry;
      }
      ghost var states1, trace1, backlog1 := States(), trace, backlog;
      Complete(p, Cancelled, None);
      AdvancedTrans(states0, states1, States());
      if userOnly {
        RanThen(head, tail, trace0, trace1, trace, backlog0, backlog1, backlog);
      }
      OnlyRejectedTrans(states0, states1, States(), Cancelled);
      CancelledExtend(states0, states1, States(), chain, p);
    }

    /** `littlePromise?.cancel()`: cancels the upstream chain of `p`, and
        nothing else when its closures are all user closures. */
    method CancelUpstream(p: Promise<T>)
      requires Valid() && p in promises
      modifies this`trace, this`backlog, promises, registries
      ensures Valid() && Progressed() && RejectedOnlyWith(Cancelled)
      ensures CancelledIn(old(States()), States(), old(Upstream(p)))
      ensures AllUser(old(UpstreamDrain(p))) ==>
                && unchanged(registries) && (forall q | q in old(promises) && q !in old(Upstream(p)) :: unchanged(q))
                && trace == old(trace) + Ran(old(UpstreamDrain(p)))
                && backlog == old(backlog) + Submitted(old(UpstreamDrain(p)))
      decreases p.rank, 0
    {
      var up := p.littlePromise;
      if up != null {
        assert Upstream(p) == {up} + Upstream(up);
        Cancel(up);
      } else {
        assert Ran<T>([]) == [] && Submitted<T>([]) == [];
      }
    }

    /** The queue a dispatch was submitted to runs it: a user closure
        records its event, with that queue; a forwarding closure runs, and
        what it hands back with no queue of its own runs nested inside it,
        so a forward settles its target with what it carries, and applying
        `next` does what `RunNested` states. */
    method RunSubmitted(i: nat)
      requires Valid() && i < |backlog|
      modifies this`trace, this`backlog, promises, registries
      ensures Valid() && Progressed()
      ensures old(backlog[..i] + backlog[i + 1..]) <= backlog
      ensures IsUser(old(backlog[i])) ==>
                && trace == old(trace) + [EventOf(old(backlog[i]))] && backlog == old(backlog[..i] + backlog[i + 1..])
                && unchanged(promises, registries)
      ensures var item := old(backlog[i]); item.Success? && item.successClosure.ForwardValue? ==>
                var child := item.successClosure.child;
                child.State() == Settle(old(child.State()), WithResult(item.value))
      ensures var item := old(backlog[i]); item.Failure? && item.errorClosure.ForwardError? ==>
                var child := item.errorClosure.child;
                child.State() == Settle(old(child.State()), WithError(item.error))
      ensures var item := old(backlog[i]); item.Success? && item.successClosure.ApplyNext? ==>
                var inner, child := item.successClosure.next(item.value), item.successClosure.child;
                && (old(inner.State()).Fulfilled? ==>
                      child.State() == Settle(old(child.State()), WithResult(old(inner.State()).value)))
                && (old(inner.State()).Rejected? ==>
                      child.State() == Settle(old(child.State()), WithError(old(inner.State()).error)))
                && (old(inner.State()).Pending? ==>
                      var r := old(inner.Registry());
                      && Still()
                      && inner.Registry() == r.(successFutures := r.successFutures + [Future(ForwardValue(child), None)],
                                                errorFutures := r.errorFutures + [Future(ForwardError(child), None)]))
    {
      var item := Take(i);
      if IsUser(item) {
        RunUser(item);
      } else {
        var inline := if item.Success? then Success(item.successClosure, item.value, None)
                      else Failure(item.errorClosure, item.error, None);
        assert WorkIn(inline, promises);
        RunNested(inline);
      }
    }

    /** Runs a forwarding closure and, nested inside it, all it hands back: a
        forward settles its target with what it carries; applying `next`
        settles the child with the outcome of the promise `next` returns
        when that promise is completed, and otherwise registers the two
        forwards on it and changes no state. */
    method RunNested(item: Work<T>)
      requires Valid() && WorkIn(item, promises) && !IsUser(item)
      modifies this`trace, this`backlog, promises, registries
      ensures Valid() && Progressed() && old(backlog) <= backlog
      ensures item.Success? && item.successClosure.ForwardValue? ==>
                var child := item.successClosure.child;
                child.State() == Settle(old(child.State()), WithResult(item.value))
      ensures item.Failure? ==>
                var child := item.errorClosure.child;
                child.State() == Settle(old(child.State()), WithError(item.error))
      ensures item.Success? && item.successClosure.ApplyNext? ==>
                var inner, child := item.successClosure.next(item.value), item.successClosure.child;
                && (old(inner.State()).Fulfilled? ==>
                      child.State() == Settle(old(child.State()), WithResult(old(inner.State()).value)))
                && (old(inner.State()).Rejected? ==>
                      child.State() == Settle(old(child.State()), WithError(old(inner.State()).error)))
                && (old(inner.State()).Pending? ==>
                      var r := old(inner.Registry());
                      && Still()
                      && inner.Registry() == r.(successFutures := r.successFutures + [Future(ForwardValue(child), None)],
                                                errorFutures := r.errorFutures + [Future(ForwardError(child), None)]))
      decreases Cost(item)
    {
      if item.Success? && item.successClosure.ApplyNext? {
        ghost var inner, child := item.successClosure.next(item.value), item.successClosure.child;
        assert inner in promises && child in promises;
        ghost var before := States();
        assert before[inner] == inner.State() && before[child] == child.State();
        var more := Invoke(item);
        assert States() == before;
        assert inner.State() == States()[inner] && child.State() == States()[child];
        if more != [] {
          RunNested(more[0]);
        }
      } else {
        ghost var forward := (item.Success? && item.successClosure.ForwardValue?) || item.Failure?;
        ghost var target := if item.Success? then item.successClosure.child else item.errorClosure.child;
        var more := Invoke(item);
        ghost var ran := States();
        if forward {
          assert ran[target] == target.State();
          if item.Success? {
            assert target.State() == Settle(old(target.State()), WithResult(item.value));
          } else {
            assert target.State() == Settle(old(target.State()), WithError(item.error));
          }
        }
        Execute(more, if item.Failure? then Some(item.error) else None);
        AdvancedTrans(old(States()), ran, States());
        assert forward ==> target.State() == States()[target] == ran[target];
      }
    }

    /** The queue takes the `i`-th submitted dispatch out of the backlog. */
    method Take(i: nat) returns (item: Work<T>)
      requires Valid() && i < |backlog|
      modifies this`backlog
      ensures Valid() && Progressed() && Still() && WorkIn(item, promises)
      ensures item == old(backlog[i]) && backlog == old(backlog[..i] + backlog[i + 1..])
    {
      item := backlog[i];
      assert WorkIn(item, promises);
      backlog := backlog[..i] + backlog[i + 1..];
      assert forall k | 0 <= k < |backlog| :: backlog[k] == old(backlog)[if k < i then k else k + 1];
    }

    /** A promise whose older promises kept their upstreams, states and
        registries keeps its cancelling drain. */
    twostate lemma DrainKept(x: Promise<T>)
      requires old(Closed()) && Closed() && x in old(promises) && promises == old(promises)
      requires AgreeBelow(old(Links()), Links(), x.rank)
      requires forall q | q in promises && q.rank <= x.rank ::
                 q.IsPending() == old(q.IsPending()) && q.Registry() == old(q.Registry())
      ensures CancelDrain(x) == old(CancelDrain(x))
      decreases x.rank
    {
      assert old(Links())[x] == Links()[x];
      if x.littlePromise != null {
        var up := x.littlePromise;
        assert old(Links())[up] == Links()[up];
        DrainKept(up);
      }
    }

    /** Assigning `littlePromise`. When `p` is already rejected, the
        observer cancels the new upstream at once; otherwise nothing else
        happens. */
    method SetLittlePromise(p: Promise<T>, upstream: Promise?<T>)
      requires Valid() && p in promises
      requires upstream != null ==> upstream in promises && upstream.rank < p.rank
      modifies this`trace, this`backlog, promises, registries
      ensures Valid() && promises == old(promises) && p.littlePromise == upstream
      ensures forall q | q in promises && q != p :: q.littlePromise == old(q.littlePromise)
      ensures Advanced(old(States()), States()) && RejectedOnlyWith(Cancelled)
      ensures upstream == null || !old(p.State()).Rejected? ==>
                && trace == old(trace) && backlog == old(backlog) && unchanged(registries)
                && forall q | q in promises && q != p :: unchanged(q)
      ensures upstream != null && old(p.State()).Rejected? ==>
                && CancelledIn(old(States()), States(), old(Upstream(upstream)) + {upstream})
                && (AllUser(old(CancelDrain(upstream))) ==>
                      && unchanged(registries) && (forall q | q in old(promises) && q !in old(Upstream(upstream)) + {upstream, p} :: unchanged(q))
                      && trace == old(trace) + Ran(old(CancelDrain(upstream)))
                      && backlog == old(backlog) + Submitted(old(CancelDrain(upstream))))
    {
      ghost var states0 := States();
      var toCancel := p.SetLittlePromise(upstream);
      assert States() == states0;
      ghost var links1 := Links();
      if toCancel != null {
        assert AgreeBelow(old(Links()), links1, toCancel.rank);
        UpstreamAgrees(toCancel);
        DrainKept(toCancel);
        Cancel(toCancel);
        assert Links() == links1;
      }
      forall q | q in promises
        ensures q.littlePromise == if q == p then upstream else old(q.littlePromise)
      {
        assert Links()[q] == links1[q];
      }
    }

    /** `Promise(successClosure:queue:littlePromise:)`. An upstream given
        here is not cancelled, whatever the new promise's state: the
        initialiser's assignment runs no observer. */
    method NewPromise(successClosure: Option<CallbackId>, queue: Option<Queue>, littlePromise: Promise?<T>)
      returns (p: Promise<T>)
      requires Valid() && (littlePromise != null ==> littlePromise in promises)
      modifies this`promises, this`registries, this`clock
      ensures Valid() && fresh(p) && promises == old(promises) + {p}
      ensures p.futures != null && fresh(p.futures) && registries == old(registries) + {p.futures}
      ensures p.State() == Pending && p.littlePromise == littlePromise && p.rank == old(clock) && clock == old(clock) + 1
      ensures p.Registry() == Entries(if successClosure.Some? then [Future(OnValue(successClosure.value), queue)] else [], [], [])
    {
      p := new Promise(successClosure, queue, littlePromise, clock);
      forall r | r in registries
        ensures EntriesIn(r.Contents(), promises + {p})
      {
        EntriesGrow(r.Contents(), promises, promises + {p});
      }
      promises := promises + {p};
      registries := registries + {p.futures};
      clock := clock + 1;
    }

    /** `fulfill(with:in:)`, then the dispatches it hands over. A second
        completion changes nothing and runs nothing; the first one runs the
        success closures, then the finally closures, each on its own queue,
        else on `queue`, else inline. */
    method Fulfill(p: Promise<T>, value: T, queue: Option<Queue>)
      requires Valid() && p in promises
      modifies this`trace, this`backlog, promises, registries
      ensures Valid() && Progressed()
      ensures p.State() == Settle(old(p.State()), WithResult(value))
      ensures !old(p.IsPending()) ==> unchanged(promises, registries) && trace == old(trace) && backlog == old(backlog)
      ensures old(p.IsPending()) && AllUser(OnFulfill(old(p.Registry()), value, queue)) ==>
                && (forall q | q in old(promises) && q != p :: unchanged(q)) && unchanged(registries)
                && trace == old(trace) + Ran(OnFulfill(old(p.Registry()), value, queue))
                && backlog == old(backlog) + Submitted(OnFulfill(old(p.Registry()), value, queue))
    {
      ghost var before, pending, registry := States(), p.IsPending(), p.Registry();
      var work := SettleWithValue(p, value, queue);
      ghost var settled := States();
      assert settled[p] == p.State();
      assert work == if pending then OnFulfill(registry, value, queue) else [];
      Execute(work, None);
      assert States()[p] == settled[p];
      AdvancedTrans(before, settled, States());
    }

    /** `complete(with:in:)`, then the dispatches it hands over: the error
        channel's counterpart of `Fulfill`. The only state changes it causes
        are pending promises rejected with `error`. */
    method Complete(p: Promise<T>, error: Error, queue: Option<Queue>)
      requires Valid() && p in promises
      modifies this`trace, this`backlog, promises, registries
      ensures Valid() && Progressed() && RejectedOnlyWith(error)
      ensures p.State() == Settle(old(p.State()), WithError(error))
      ensures !old(p.IsPending()) ==> unchanged(promises, registries) && trace == old(trace) && backlog == old(backlog)
      ensures old(p.IsPending()) && AllUser(OnComplete(old(p.Registry()), error, queue)) ==>
                && (forall q | q in old(promises) && q != p :: unchanged(q)) && unchanged(registries)
                && trace == old(trace) + Ran(OnComplete(old(p.Registry()), error, queue))
                && backlog == old(backlog) + Submitted(OnComplete(old(p.Registry()), error, queue))
      ensures old(p.IsPending()) ==> ErrorsForwarded(old(States()), States(), OnComplete(old(p.Registry()), error, queue), error)
    {
      ghost var before, pending, registry := States(), p.IsPending(), p.Registry();
      var work := SettleWithError(p, error, queue);
      ghost var settled := States();
      assert settled[p] == p.State();
      assert work == if pending then OnComplete(registry, error, queue) else [];
      Execute(work, Some(error));
      assert States()[p] == settled[p];
      AdvancedTrans(before, settled, States());
      OnlyRejectedTrans(before, settled, States(), error);
      ForwardedEarlier(before, settled, States(), work, error);
    }
  }
}
