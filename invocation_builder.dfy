/**
 * The future adapters of `InvocationBuilder`: the default methods `invoke()` and
 * `invokeAndRetire()` each create a `CompletableFuture`, hand an anonymous callback to the
 * builder's two-argument `invoke(callback, callbacks)` together with a fixed subscription,
 * and let that callback settle the future when the terminal event arrives.
 *
 * The pure part (Step, Run, Filter) describes what a callback does with any sequence of
 * events; the classes below are the mutable objects of the source and are proved to follow it.
 */
module Invocation {
  import opened Wrappers

  /** The kinds of `InvocationCallback.Types` that a subscription can name. */
  datatype Kind = SENT | RECEIVED | RESULT | FAILURE | COMPLETE | RETIRED

  /**
   * One call the transport makes on a callback: `result(r)`, `failure(t)`, `complete()`, ...
   * The response of `result` may be `null` (`None`).
   */
  datatype Event<R, E> =
    | Sent
    | Received
    | Result(response: Option<R>)
    | Failure(failure: E)
    | Complete
    | Retired

  function KindOf<R, E>(ev: Event<R, E>): Kind
  {
    match ev
    case Sent => SENT
    case Received => RECEIVED
    case Result(_) => RESULT
    case Failure(_) => FAILURE
    case Complete => COMPLETE
    case Retired => RETIRED
  }

  /**
   * What a caller of `Future.get()` would observe: nothing yet, a value (`Done(None)` is a
   * completion with `null`, whether no result arrived or the last one was `null`), or the
   * throwable given to `completeExceptionally`.
   */
  datatype FutureState<R, E> = Pending | Done(value: Option<R>) | Failed(error: E)

  /**
   * A `CompletableFuture` is assigned at most once: an attempt to settle an already settled
   * future leaves it as it is.
   */
  function Settle<R, E>(current: FutureState<R, E>, attempt: FutureState<R, E>): (r: FutureState<R, E>)
    requires attempt != Pending
    ensures r != Pending
    ensures current != Pending ==> r == current
    ensures current == Pending ==> r == attempt
  {
    if current.Pending? then attempt else current
  }

  /**
   * Which default method built the callback: `invoke()` resolves on `complete()`,
   * `invokeAndRetire()` resolves on `retired()`.
   */
  datatype Flavor = OnComplete | OnRetired

  /** The set each default method passes to the two-argument `invoke`. */
  function Subscription(flavor: Flavor): (s: set<Kind>)
    ensures RESULT in s && FAILURE in s
    ensures SENT !in s && RECEIVED !in s
    ensures COMPLETE in s <==> flavor == OnComplete
    ensures RETIRED in s <==> flavor == OnRetired
    ensures |s| == 3
  {
    match flavor
    case OnComplete => {RESULT, FAILURE, COMPLETE}
    case OnRetired => {RESULT, FAILURE, RETIRED}
  }

  /** The callback's buffered `response` field together with the state of its future. */
  datatype AdapterState<R, E> = AdapterState(response: Option<R>, future: FutureState<R, E>)

  /** A freshly created callback: no response buffered, future not yet settled. */
  function Initial<R, E>(): AdapterState<R, E>
  {
    AdapterState(None, Pending)
  }

  /** Is `ev` an event on which a callback of this flavor settles its future? */
  predicate Settles<R, E>(flavor: Flavor, ev: Event<R, E>)
  {
    ev.Failure? || (ev.Complete? && flavor == OnComplete) || (ev.Retired? && flavor == OnRetired)
  }

  /**
   * The effect of one callback method. `result` only overwrites the buffer; `failure` settles
   * the future exceptionally; the flavor's terminal method completes it with the buffer.
   * Callback methods the adapter does not override do nothing.
   */
  function Step<R, E>(flavor: Flavor, st: AdapterState<R, E>, ev: Event<R, E>): (r: AdapterState<R, E>)
    ensures ev.Result? ==> r == AdapterState(ev.response, st.future)
    ensures !ev.Result? ==> r.response == st.response
    ensures !Settles(flavor, ev) ==> r.future == st.future
    ensures ev.Failure? ==> r.future == Settle(st.future, Failed(ev.failure))
    ensures Settles(flavor, ev) && !ev.Failure? ==> r.future == Settle(st.future, Done(st.response))
  {
    match ev
    case Result(response) => st.(response := response)
    case Failure(failure) => st.(future := Settle(st.future, Failed(failure)))
    case Complete =>
      if flavor == OnComplete then st.(future := Settle(st.future, Done(st.response))) else st
    case Retired =>
      if flavor == OnRetired then st.(future := Settle(st.future, Done(st.response))) else st
    case Sent => st
    case Received => st
  }

  /**
   * The callback's state after receiving `events` in order, starting from `st`. Without a
   * `result` event the buffer is left as it was.
   */
  function Run<R, E>(flavor: Flavor, st: AdapterState<R, E>, events: seq<Event<R, E>>): (r: AdapterState<R, E>)
    ensures (forall i :: 0 <= i < |events| ==> !events[i].Result?) ==> r.response == st.response
    decreases |events|
  {
    if events == [] then st
    else Step(flavor, Run(flavor, st, events[..|events| - 1]), events[|events| - 1])
  }

  /** The events that survive a subscription: the others are dropped, the order is kept. */
  function Filter<R, E>(subscription: set<Kind>, events: seq<Event<R, E>>): (r: seq<Event<R, E>>)
    ensures |r| <= |events|
    ensures forall i :: 0 <= i < |r| ==> KindOf(r[i]) in subscription && r[i] in events
    ensures forall i :: 0 <= i < |events| && KindOf(events[i]) in subscription ==> events[i] in r
    ensures (forall i :: 0 <= i < |events| ==> KindOf(events[i]) in subscription) ==> r == events
    decreases |events|
  {
    if events == [] then []
    else
      var init := Filter(subscription, events[..|events| - 1]);
      var last := events[|events| - 1];
      if KindOf(last) in subscription then init + [last] else init
  }

  /** Filtering is done event by event: it distributes over concatenation, so order is kept. */
  lemma {:induction false} FilterAppend<R, E>(subscription: set<Kind>, a: seq<Event<R, E>>, b: seq<Event<R, E>>)
    ensures Filter(subscription, a + b) == Filter(subscription, a) + Filter(subscription, b)
    decreases |b|
  {
    if b == [] {
      assert a + b == a;
    } else {
      var init := b[..|b| - 1];
      assert (a + b)[..|a + b| - 1] == a + init;
      assert (a + b)[|a + b| - 1] == b[|b| - 1];
      FilterAppend(subscription, a, init);
    }
  }

  /**
   * The value of the last `result` event in `events`, or `None` (Java `null`) if there is none
   * or if that value was itself `null`.
   */
  function LastResult<R, E>(events: seq<Event<R, E>>): Option<R>
    decreases |events|
  {
    if events == [] then None
    else if events[|events| - 1].Result? then events[|events| - 1].response
    else LastResult(events[..|events| - 1])
  }

  /** `i` is the position of the first event on which the callback settles its future. */
  predicate FirstSettling<R, E>(flavor: Flavor, events: seq<Event<R, E>>, i: int)
  {
    0 <= i < |events| && Settles(flavor, events[i])
    && forall j :: 0 <= j < i ==> !Settles(flavor, events[j])
  }

  /** What the future holds once the settling event `ev` arrives with `buffered` in the buffer. */
  function Resolution<R, E>(ev: Event<R, E>, buffered: Option<R>): (r: FutureState<R, E>)
    ensures r != Pending
  {
    if ev.Failure? then Failed(ev.failure) else Done(buffered)
  }

  // ---------------------------------------------------------------------------------------
  // Properties of the fold
  // ---------------------------------------------------------------------------------------

  /** Running two batches of events one after the other is running their concatenation. */
  lemma {:induction false} RunAppend<R, E>(flavor: Flavor, st: AdapterState<R, E>, a: seq<Event<R, E>>, b: seq<Event<R, E>>)
    ensures Run(flavor, st, a + b) == Run(flavor, Run(flavor, st, a), b)
    decreases |b|
  {
    if b == [] {
      assert a + b == a;
    } else {
      assert (a + b)[..|a + b| - 1] == a + b[..|b| - 1];
      assert (a + b)[|a + b| - 1] == b[|b| - 1];
      RunAppend(flavor, st, a, b[..|b| - 1]);
    }
  }

  /** `result` events only ever overwrite the buffer: it holds the last one delivered. */
  lemma {:induction false} RunResponse<R, E>(flavor: Flavor, events: seq<Event<R, E>>)
    ensures Run(flavor, Initial(), events).response == LastResult(events)
    decreases |events|
  {
    if events != [] {
      RunResponse(flavor, events[..|events| - 1]);
    }
  }

  /** First settlement wins: once settled, no later event changes the future. */
  lemma {:induction false} SettledStays<R, E>(flavor: Flavor, st: AdapterState<R, E>, events: seq<Event<R, E>>)
    requires st.future != Pending
    ensures Run(flavor, st, events).future == st.future
    decreases |events|
  {
    if events != [] {
      SettledStays(flavor, st, events[..|events| - 1]);
    }
  }

  /** Without a settling event the future stays pending, whatever else arrives. */
  lemma {:induction false} StaysPending<R, E>(flavor: Flavor, st: AdapterState<R, E>, events: seq<Event<R, E>>)
    requires st.future == Pending
    requires forall j :: 0 <= j < |events| ==> !Settles(flavor, events[j])
    ensures Run(flavor, st, events).future == Pending
    decreases |events|
  {
    if events != [] {
      StaysPending(flavor, st, events[..|events| - 1]);
    }
  }

  /**
   * The outcome of any event sequence: the first settling event decides the future, with the
   * last `result` before it when that event is the flavor's terminal one, or with exactly the
   * carried throwable (the buffer discarded) when it is a `failure`.
   */
  lemma Outcome<R, E>(flavor: Flavor, events: seq<Event<R, E>>, i: int)
    requires FirstSettling(flavor, events, i)
    ensures Run(flavor, Initial(), events).future == Resolution(events[i], LastResult(events[..i]))
  {
    var before, rest := events[..i], events[i + 1..];
    assert events == before + [events[i]] + rest;
    assert events[..i + 1] == before + [events[i]];
    StaysPending(flavor, Initial(), before);
    RunResponse(flavor, before);
    var settled := Run(flavor, Initial(), events[..i + 1]);
    assert settled == Step(flavor, Run(flavor, Initial(), before), events[i]);
    assert settled.future == Resolution(events[i], LastResult(before));
    RunAppend(flavor, Initial(), events[..i + 1], rest);
    SettledStays(flavor, settled, rest);
  }

  /** The future is settled exactly when some settling event was delivered. */
  lemma SettledIff<R, E>(flavor: Flavor, events: seq<Event<R, E>>)
    ensures Run(flavor, Initial(), events).future != Pending
        <==> exists i :: 0 <= i < |events| && Settles(flavor, events[i])
  {
    if exists i :: 0 <= i < |events| && Settles(flavor, events[i]) {
      var i := FirstIndex(flavor, events);
      Outcome(flavor, events, i);
    } else {
      StaysPending(flavor, Initial(), events);
    }
  }

  /** Helper: a settling event exists, so there is a first one. */
  lemma {:induction false} FirstIndex<R, E>(flavor: Flavor, events: seq<Event<R, E>>) returns (i: int)
    requires exists k :: 0 <= k < |events| && Settles(flavor, events[k])
    ensures FirstSettling(flavor, events, i)
    decreases |events|
  {
    var last := |events| - 1;
    if exists k :: 0 <= k < last && Settles(flavor, events[k]) {
      i := FirstIndex(flavor, events[..last]);
      assert events[..last][i] == events[i];
      forall j | 0 <= j < i ensures !Settles(flavor, events[j]) {
        assert events[..last][j] == events[j];
      }
    } else {
      i := last;
    }
  }

  /**
   * On the `invoke()` path: after results only, `complete()` resolves the future with the last
   * result, or with `null` when no result arrived.
   */
  lemma CompleteResolvesWithBuffer<R, E>(results: seq<Event<R, E>>)
    requires forall j :: 0 <= j < |results| ==> results[j].Result?
    ensures Run(OnComplete, Initial(), results + [Complete]).future == Done(LastResult(results))
  {
    var events := results + [Complete];
    assert events[..|results|] == results;
    Outcome(OnComplete, events, |results|);
  }

  /**
   * On the `invokeAndRetire()` path `retired()` resolves the future, while a `complete()`
   * reaching that adapter settles nothing.
   */
  lemma RetiredResolvesWithBuffer<R, E>(results: seq<Event<R, E>>)
    requires forall j :: 0 <= j < |results| ==> results[j].Result?
    ensures Run(OnRetired, Initial(), results + [Retired]).future == Done(LastResult(results))
    ensures Run(OnRetired, Initial(), results + [Complete]).future == Pending
  {
    var events := results + [Retired];
    assert events[..|results|] == results;
    Outcome(OnRetired, events, |results|);
    StaysPending(OnRetired, Initial(), results + [Complete]);
  }

  /** `failure(t)` rejects the future with exactly `t`, discarding any buffered result. */
  lemma FailureRejects<R, E>(flavor: Flavor, events: seq<Event<R, E>>, t: E)
    requires forall j :: 0 <= j < |events| ==> !Settles(flavor, events[j])
    ensures Run(flavor, Initial(), events + [Failure(t)]).future == Failed(t)
  {
    var all := events + [Failure(t)];
    assert all[..|events|] == events;
    Outcome(flavor, all, |events|);
  }

  /**
   * Delivering only the subscribed events changes nothing for an adapter, since the kinds
   * left out of its subscription are the ones whose methods it does not override.
   */
  lemma {:induction false} FilterTransparent<R, E>(flavor: Flavor, st: AdapterState<R, E>, events: seq<Event<R, E>>)
    ensures Run(flavor, st, Filter(Subscription(flavor), events)) == Run(flavor, st, events)
    decreases |events|
  {
    if events != [] {
      var init := events[..|events| - 1];
      var last := events[|events| - 1];
      FilterTransparent(flavor, st, init);
      if KindOf(last) in Subscription(flavor) {
        var f := Filter(Subscription(flavor), init);
        assert (f + [last])[..|f + [last]| - 1] == f;
      }
    }
  }

  // ---------------------------------------------------------------------------------------
  // The mutable objects
  // ---------------------------------------------------------------------------------------

  /** `java.util.concurrent.CompletableFuture`, as a single-assignment cell. */
  class CompletableFuture<R, E> {
    var state: FutureState<R, E>

    constructor ()
      ensures state == Pending
    {
      state := Pending;
    }

    /** `complete(value)`: returns whether this call is the one that settled the future. */
    method Complete(value: Option<R>) returns (changed: bool)
      modifies this
      ensures changed <==> old(state) == Pending
      ensures state == Settle(old(state), Done(value))
    {
      changed := state.Pending?;
      if changed {
        state := Done(value);
      }
    }

    /** `completeExceptionally(error)`: returns whether this call settled the future. */
    method CompleteExceptionally(error: E) returns (changed: bool)
      modifies this
      ensures changed <==> old(state) == Pending
      ensures state == Settle(old(state), Failed(error))
    {
      changed := state.Pending?;
      if changed {
        state := Failed(error);
      }
    }
  }

  /** The anonymous `InvocationCallback` of `invoke()` (OnComplete) or `invokeAndRetire()` (OnRetired). */
  class FutureAdapter<R, E> {
    const flavor: Flavor
    const future: CompletableFuture<R, E>
    var response: Option<R>

    ghost function State(): AdapterState<R, E>
      reads this, future
    {
      AdapterState(response, future.state)
    }

    constructor (flavor: Flavor, future: CompletableFuture<R, E>)
      ensures this.flavor == flavor && this.future == future
      ensures response == None
    {
      this.flavor := flavor;
      this.future := future;
      response := None;
    }

    /** `result(response)`: buffer the response, leave the future alone. */
    method Result(r: Option<R>)
      modifies this
      ensures State() == Step(flavor, old(State()), Event.Result(r))
      ensures response == r && future.state == old(future.state)
    {
      response := r;
    }

    /** `complete()`: overridden by the `invoke()` adapter only. */
    method Complete()
      modifies future
      ensures State() == Step(flavor, old(State()), Event.Complete)
    {
      if flavor == OnComplete {
        var _ := future.Complete(response);
      }
    }

    /** `retired()`: overridden by the `invokeAndRetire()` adapter only. */
    method Retired()
      modifies future
      ensures State() == Step(flavor, old(State()), Event.Retired)
    {
      if flavor == OnRetired {
        var _ := future.Complete(response);
      }
    }

    /** `failure(t)`: settle the future exceptionally with exactly `t`. */
    method Failure(t: E)
      modifies future
      ensures State() == Step(flavor, old(State()), Event.Failure(t))
      ensures future.state == Settle(old(future.state), Failed(t))
    {
      var _ := future.CompleteExceptionally(t);
    }
  }

  /** One call of the two-argument `invoke(callback, callbacks)`. */
  datatype Dispatch<R, E> = Dispatch(callback: FutureAdapter<R, E>, subscription: set<Kind>)

  /**
   * An `InvocationBuilder` as far as its default methods see it: the implementation's
   * two-argument `invoke` is abstract here and only records what it was given.
   */
  class InvocationBuilder<R, E> {
    var dispatched: seq<Dispatch<R, E>>

    constructor ()
      ensures dispatched == []
    {
      dispatched := [];
    }

    /** The abstract `invoke(callback, callbacks)` of the interface. */
    method InvokeWith(callback: FutureAdapter<R, E>, subscription: set<Kind>)
      modifies this
      ensures dispatched == old(dispatched) + [Dispatch(callback, subscription)]
    {
      dispatched := dispatched + [Dispatch(callback, subscription)];
    }

    /** Common body of the two default methods. */
    method InvokeAdapting(flavor: Flavor) returns (future: CompletableFuture<R, E>)
      modifies this
      ensures fresh(future) && future.state == Pending
      ensures |dispatched| == |old(dispatched)| + 1 && dispatched[..|old(dispatched)|] == old(dispatched)
      ensures var d := dispatched[|dispatched| - 1];
        fresh(d.callback) && d.callback.future == future && d.callback.flavor == flavor
        && d.callback.State() == Initial() && d.subscription == Subscription(flavor)
    {
      future := new CompletableFuture();
      var callback := new FutureAdapter(flavor, future);
      InvokeWith(callback, Subscription(flavor));
      assert dispatched[..|old(dispatched)|] == old(dispatched);
    }

    /**
     * `invoke()`: one dispatch subscribing to exactly {RESULT, FAILURE, COMPLETE}; the returned
     * future is pending and is the one the callback will settle.
     */
    method Invoke() returns (future: CompletableFuture<R, E>)
      modifies this
      ensures fresh(future) && future.state == Pending
      ensures |dispatched| == |old(dispatched)| + 1 && dispatched[..|old(dispatched)|] == old(dispatched)
      ensures var d := dispatched[|dispatched| - 1];
        fresh(d.callback) && d.callback.future == future && d.callback.flavor == OnComplete
        && d.callback.State() == Initial() && d.subscription == {RESULT, FAILURE, COMPLETE}
    {
      future := InvokeAdapting(OnComplete);
    }

    /** `invokeAndRetire()`: as `invoke()`, with {RESULT, FAILURE, RETIRED}; COMPLETE is not subscribed. */
    method InvokeAndRetire() returns (future: CompletableFuture<R, E>)
      modifies this
      ensures fresh(future) && future.state == Pending
      ensures |dispatched| == |old(dispatched)| + 1 && dispatched[..|old(dispatched)|] == old(dispatched)
      ensures var d := dispatched[|dispatched| - 1];
        fresh(d.callback) && d.callback.future == future && d.callback.flavor == OnRetired
        && d.callback.State() == Initial() && d.subscription == {RESULT, FAILURE, RETIRED}
        && COMPLETE !in d.subscription
    {
      future := InvokeAdapting(OnRetired);
    }
  }

  /** Helper: one more event is kept by the filter exactly when its kind is subscribed. */
  lemma FilterSnoc<R, E>(subscription: set<Kind>, events: seq<Event<R, E>>, ev: Event<R, E>)
    ensures Filter(subscription, events + [ev])
         == if KindOf(ev) in subscription then Filter(subscription, events) + [ev]
            else Filter(subscription, events)
  {
    var all := events + [ev];
    assert all[..|all| - 1] == events;
  }

  /** Helper: running one more event is one more step. */
  lemma RunSnoc<R, E>(flavor: Flavor, st: AdapterState<R, E>, events: seq<Event<R, E>>, ev: Event<R, E>)
    ensures Run(flavor, st, events + [ev]) == Step(flavor, Run(flavor, st, events), ev)
  {
    var all := events + [ev];
    assert all[..|all| - 1] == events;
  }

  /** Delivers one event: calls the matching callback method if its kind is subscribed. */
  method DeliverEvent<R, E>(callback: FutureAdapter<R, E>, subscription: set<Kind>, ev: Event<R, E>)
    modifies callback, callback.future
    ensures callback.State()
         == if KindOf(ev) in subscription then Step(callback.flavor, old(callback.State()), ev)
            else old(callback.State())
  {
    if KindOf(ev) in subscription {
      match ev {
        case Sent =>
        case Received =>
        case Result(r) => callback.Result(r);
        case Failure(t) => callback.Failure(t);
        case Complete => callback.Complete();
        case Retired => callback.Retired();
      }
    }
  }

  /**
   * Stand-in for the transport behind `invoke(callback, callbacks)`: it calls the callback's
   * method for each event in order, dropping the kinds outside the subscription.
   */
  method DeliverEvents<R, E>(callback: FutureAdapter<R, E>, subscription: set<Kind>, events: seq<Event<R, E>>)
    modifies callback, callback.future
    ensures callback.State() == Run(callback.flavor, old(callback.State()), Filter(subscription, events))
  {
    ghost var start := callback.State();
    ghost var delivered: seq<Event<R, E>> := [];
    var i := 0;
    while i < |events|
      invariant 0 <= i <= |events|
      invariant delivered == Filter(subscription, events[..i])
      invariant callback.State() == Run(callback.flavor, start, delivered)
    {
      var ev := events[i];
      FilterSnoc(subscription, events[..i], ev);
      assert events[..i + 1] == events[..i] + [ev];
      DeliverEvent(callback, subscription, ev);
      if KindOf(ev) in subscription {
        RunSnoc(callback.flavor, start, delivered, ev);
        delivered := delivered + [ev];
      }
      i := i + 1;
    }
    assert events[..i] == events;
  }
}
