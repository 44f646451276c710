/** The channel framework (`_Publishers.Channel`): one object that is both
    the subscriber of an upstream and the subscription handed to a
    downstream. `Base` holds the guards, `TransformBase` turns each input
    into an optional output or a thrown error, `FilterBase` specialises the
    transform to a predicate, and `Anonymous` runs operator closures behind
    the same guards. */
module Channels {
  import opened Wrappers
  import opened Demands
  import opened Completions
  import opened Signals
  import opened SubscriptionState

  /** `shouldReceive(subscription:)`: only a pending edge accepts a
      subscription, which makes it subscribed and open. */
  function AcceptSubscription(e: SubscriberEvent, s: SubId): (r: (bool, SubscriberEvent))
    ensures r.0 <==> e.Pending?
    ensures r.0 ==> r.1.IsOpen() && r.1.EmbeddedSubscription() == Some(s)
    ensures !r.0 ==> r.1 == e
  {
    if e == Pending then (true, Subscribed(Some(s), Open)) else (false, e)
  }

  /** `shouldReceiveCompletion(_:)`: only an open edge accepts a
      completion, which it records with `complete(_:)`. */
  function AcceptCompletion(e: SubscriberEvent, isFinished: bool): (r: (bool, SubscriberEvent))
    ensures r.0 <==> e.IsOpen()
    ensures r.0 ==> r.1 == SubscribedWith(e.subscription, isFinished)
    ensures !r.0 ==> r.1 == e
  {
    if !e.IsOpen() then (false, e) else Complete(e, isFinished)
  }

  /** A second subscription and a second completion are both refused, and a
      completed edge accepts no subscription either. */
  lemma AcceptOnce(e: SubscriberEvent, s: SubId, t: SubId, f: bool, g: bool)
    ensures AcceptSubscription(e, s).0 ==> !AcceptSubscription(AcceptSubscription(e, s).1, t).0
    ensures AcceptCompletion(e, f).0 ==> !AcceptCompletion(AcceptCompletion(e, f).1, g).0
    ensures AcceptCompletion(e, f).0 ==> !AcceptSubscription(AcceptCompletion(e, f).1, t).0
  {
  }

  /** What `transformInput` produced: a value for the downstream, `nil`, or
      a thrown error. */
  datatype Outcome<+O, +E> = Emit(value: O) | Drop | Throw(error: E)

  /** `FilterBase.transformInput`: the input itself when `filterInput`
      says true, `nil` when it says false, and the error when it throws. */
  function FilterOutcome<O, E>(input: O, verdict: Try<bool, E>): (r: Outcome<O, E>)
    ensures r.Emit? <==> verdict == Returned(true)
    ensures r.Emit? ==> r.value == input
    ensures r.Throw? <==> verdict.Threw?
    ensures r.Throw? ==> r.error == verdict.error
  {
    match verdict
    case Threw(e) => Throw(e)
    case Returned(b) => if b then Emit(input) else Drop
  }

  /** One channel object. Its downstream is represented by `sent`, the
      signals the downstream received, and its upstream subscription by
      `calls`, the requests and cancels made on it. The anonymous channel
      uses the same state and guards; `hasThrown` is only used by the
      transforming channels. */
  class Channel<O, E> {
    /** The identity the downstream sees when it receives this channel as
        its subscription. */
    const id: SubId
    var event: SubscriberEvent
    var demand: Demand
    var hasThrown: bool
    var sent: seq<Signal<O, E>>
    var calls: seq<UpCall>

    /** The downstream's trace never holds anything after a completion,
        once it holds one the edge is completed or cancelled, and a
        subscribed edge holds its upstream subscription. */
    ghost predicate Valid()
      reads this
    {
      Disciplined(sent) && (Terminated(sent) ==> event.IsCompleted() || event.Cancelled?) &&
      (event.Subscribed? ==> event.subscription.Some?)
    }

    constructor (id: SubId)
      ensures this.id == id && event == Pending && demand == Zero && !hasThrown
      ensures sent == [] && calls == [] && Valid()
    {
      this.id := id;
      event := Pending;
      demand := Zero;
      hasThrown := false;
      sent := [];
      calls := [];
    }

    /** `isSubscribedAndNotCompleted()` */
    predicate IsOpen()
      reads this
    {
      event.IsOpen()
    }

    /** `shouldCancel()`: a cancel is honoured on any subscribed edge,
        open or already completed, and refused while pending or once
        cancelled. */
    predicate ShouldCancel()
      reads this
      ensures ShouldCancel() <==> event.IsOpen() || event.IsCompleted()
      ensures event.Pending? || event.IsCancelled() ==> !ShouldCancel()
    {
      event.IsSubscribed()
    }

    /** `shouldReceive(subscription:)` */
    method ShouldReceive(s: SubId) returns (ok: bool)
      modifies this`event
      ensures (ok, event) == AcceptSubscription(old(event), s)
      ensures old(Valid()) ==> Valid()
    {
      ok := event == Pending;
      if ok {
        event := Subscribed(Some(s), Open);
      }
    }

    /** `shouldReceiveCompletion(_:)` */
    method ShouldReceiveCompletion(c: Completion<E>) returns (ok: bool)
      modifies this`event
      ensures (ok, event) == AcceptCompletion(old(event), IsFinished(c))
      ensures old(Valid()) ==> Valid()
    {
      ok := event.IsOpen();
      if ok {
        var r := Complete(event, IsFinished(c));
        event := r.1;
      }
    }

    /** `shouldRequest(_:)`: the demand accumulates only while subscribed. */
    method ShouldRequest(d: Demand) returns (ok: bool)
      modifies this`demand
      ensures ok == event.IsSubscribed()
      ensures demand == if ok then Plus(old(demand), d) else old(demand)
    {
      ok := event.IsSubscribed();
      if ok {
        demand := Plus(demand, d);
      }
    }

    /** `cancel()`: a subscribed edge cancels its upstream subscription once
        and becomes cancelled; any other edge ignores the call. */
    method Cancel()
      modifies this`event, this`calls
      ensures old(event).EmbeddedSubscription().Some? ==>
                event == Cancelled && calls == old(calls) + [CancelCall(old(event).subscription.value)]
      ensures old(event).EmbeddedSubscription().None? ==> event == old(event) && calls == old(calls)
      ensures old(Valid()) ==> Valid()
    {
      if !ShouldCancel() {
        return;
      }
      var sub := event.EmbeddedSubscription();
      if sub.None? {
        return;
      }
      calls := calls + [CancelCall(sub.value)];
      event := Cancelled;
    }

    /** `request(_:)`: adds to the stored demand and passes the request on to
        the upstream subscription, only while subscribed. */
    method Request(d: Demand)
      modifies this`demand, this`calls
      ensures demand == if old(event).IsSubscribed() then Plus(old(demand), d) else old(demand)
      ensures calls == if event.EmbeddedSubscription().Some?
                       then old(calls) + [RequestCall(event.subscription.value, d)]
                       else old(calls)
    {
      var ok := ShouldRequest(d);
      if !ok {
        return;
      }
      var sub := event.EmbeddedSubscription();
      if sub.None? {
        return;
      }
      calls := calls + [RequestCall(sub.value, d)];
    }

    /** One call on the downstream subscriber. */
    method Deliver(sig: Signal<O, E>)
      modifies this`sent
      ensures sent == old(sent) + [sig]
      ensures old(Valid()) && !old(Terminated(sent)) && (sig.Completed? ==> event.IsCompleted() || event.Cancelled?)
              ==> Valid()
    {
      if Disciplined(sent) && !Terminated(sent) {
        DisciplinedAppend(sent, sig);
      }
      sent := sent + [sig];
    }

    /** `TransformBase.receive(subscription:)`, and `Anonymous` with a
        closure that passes the subscription on: the first subscription
        makes the edge open and hands this channel to the downstream. */
    method TransformReceiveSubscription(s: SubId)
      requires Valid()
      modifies this`event, this`sent
      ensures Valid()
      ensures event == AcceptSubscription(old(event), s).1
      ensures sent == if old(event).Pending? then old(sent) + [Subscribe(id)] else old(sent)
    {
      var ok := ShouldReceive(s);
      if ok {
        Deliver(Subscribe(id));
      }
    }

    /** `TransformBase.receive(completion:)`: an open edge records the
        completion, runs `willComplete` (which may emit `flush`) unless the
        transform has thrown, and forwards the completion. Returns whether
        `willComplete` ran, so the caller can reset its state. */
    method TransformReceiveCompletion(c: Completion<E>, flush: Option<O>) returns (willComplete: bool)
      requires Valid()
      modifies this`event, this`sent
      ensures Valid()
      ensures event == AcceptCompletion(old(event), IsFinished(c)).1
      ensures willComplete == (old(event).IsOpen() && !hasThrown)
      ensures !old(event).IsOpen() ==> sent == old(sent)
      ensures old(event).IsOpen() ==>
                sent == old(sent) + (if willComplete && flush.Some? then [Value(flush.value)] else []) + [Completed(c)]
    {
      var ok := ShouldReceiveCompletion(c);
      if !ok {
        return false;
      }
      willComplete := !hasThrown;
      if willComplete && flush.Some? {
        Deliver(Value(flush.value));
      }
      Deliver(Completed(c));
    }

    /** `Anonymous.receive(completion:)` with a closure that passes the
        completion on: only the first completion of an open edge reaches
        the downstream. */
    method AnonymousReceiveCompletion(c: Completion<E>) returns (ok: bool)
      requires Valid()
      modifies this`event, this`sent
      ensures Valid()
      ensures ok == old(event).IsOpen()
      ensures event == AcceptCompletion(old(event), IsFinished(c)).1
      ensures sent == if ok then old(sent) + [Completed(c)] else old(sent)
    {
      ok := ShouldReceiveCompletion(c);
      if ok {
        Deliver(Completed(c));
      }
    }

    /** The body of `TransformBase.receive(_:)` once its guard has passed:
        a value goes to the downstream and its answer is returned; `nil`
        returns `.none`; a thrown error marks the channel as thrown and
        completes it with that failure, without `willComplete`. */
    method Forward(outcome: Outcome<O, E>, reply: Demand) returns (d: Demand)
      requires Valid()
      requires !outcome.Drop? ==> event.IsOpen()
      modifies this`event, this`sent, this`hasThrown
      ensures Valid()
      ensures outcome.Emit? ==> d == reply && sent == old(sent) + [Value(outcome.value)]
                                && event == old(event) && hasThrown == old(hasThrown)
      ensures outcome.Drop? ==> d == Zero && sent == old(sent) && event == old(event) && hasThrown == old(hasThrown)
      ensures outcome.Throw? ==> d == Zero && hasThrown && event == SubscribedWith(old(event).subscription, false)
                                 && sent == old(sent) + [Completed(Failure(outcome.error))]
    {
      match outcome
      case Emit(v) =>
        Deliver(Value(v));
        d := reply;
      case Drop =>
        d := Zero;
      case Throw(e) =>
        hasThrown := true;
        var _ := TransformReceiveCompletion(Failure(e), None);
        d := Zero;
    }
  }
}
