/** `Subscribers.Sink`: the closure-based subscriber behind `sink`. The
    closures' effects are recorded as the values and completions they were
    called with. */
module Sink {
  import opened Wrappers
  import opened Demands
  import opened Completions
  import opened Signals
  import opened SubscriptionState

  class SinkSubscriber<I, E> {
    var event: SubscriberEvent
    /** The calls made on the upstream subscription. */
    var calls: seq<UpCall>
    /** The inputs `receiveValue` was called with. */
    var values: seq<I>
    /** The completions `receiveCompletion` was called with. */
    var completions: seq<Completion<E>>

    /** Leaving the pending state always went through a subscription, which
        was asked for unlimited values before anything else; the completion
        closure runs only once a subscription is held. */
    ghost predicate Valid()
      reads this
    {
      (event.Subscribed? ==> event.subscription.Some?) &&
      (event.Pending? <==> calls == []) &&
      (calls != [] ==> calls[0].RequestCall? && calls[0].demand == Unlimited) &&
      (event.Pending? ==> completions == [])
    }

    constructor ()
      ensures Valid() && event == Pending && calls == [] && values == [] && completions == []
    {
      event := Pending;
      calls := [];
      values := [];
      completions := [];
    }

    /** `receive(subscription:)`: only the first subscription is kept, and
        it is asked for unlimited values at once. */
    method ReceiveSubscription(s: SubId)
      requires Valid()
      modifies this
      ensures Valid()
      ensures values == old(values) && completions == old(completions)
      ensures old(event).Pending? ==> event == Subscribed(Some(s), Open) && calls == [RequestCall(s, Unlimited)]
      ensures !old(event).Pending? ==> event == old(event) && calls == old(calls)
    {
      if event != Pending {
        return;
      }
      event := Subscribed(Some(s), Open);
      calls := calls + [RequestCall(s, Unlimited)];
    }

    /** `receive(_:)`: every value is handed to the closure, whatever the
        state, and `.none` is returned. */
    method ReceiveValue(x: I) returns (d: Demand)
      requires Valid()
      modifies this`values
      ensures Valid()
      ensures d == Zero && values == old(values) + [x]
    {
      values := values + [x];
      d := Zero;
    }

    /** `receive(completion:)`: ignored without a subscription; otherwise
        the state records it and the closure runs (again, if a completion
        came before). */
    method ReceiveCompletion(c: Completion<E>)
      requires Valid()
      modifies this`event, this`completions
      ensures Valid()
      ensures old(event).EmbeddedSubscription().None? ==> event == old(event) && completions == old(completions)
      ensures old(event).EmbeddedSubscription().Some? ==>
                event == SubscribedWith(old(event).subscription, IsFinished(c)) && completions == old(completions) + [c]
    {
      var subscription := event.EmbeddedSubscription();
      if subscription.None? {
        return;
      }
      event := SubscribedWith(subscription, IsFinished(c));
      completions := completions + [c];
    }

    /** `cancel()`: cancels the held subscription, if any, and becomes
        cancelled. */
    method Cancel()
      requires Valid()
      modifies this`event, this`calls
      ensures Valid()
      ensures old(event).EmbeddedSubscription().None? ==> event == old(event) && calls == old(calls)
      ensures old(event).EmbeddedSubscription().Some? ==>
                event == Cancelled && calls == old(calls) + [CancelCall(old(event).subscription.value)]
    {
      var subscription := event.EmbeddedSubscription();
      if subscription.None? {
        return;
      }
      calls := calls + [CancelCall(subscription.value)];
      event := Cancelled;
    }
  }
}
