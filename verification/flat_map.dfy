/** `Channel.FlatMap`: turns each upstream value into an inner publisher,
    at most `maxPublishers` of them live at a time, and merges their values
    into the downstream. */
module FlatMap {
  import opened Wrappers
  import opened Demands
  import opened Completions
  import opened Signals
  import opened SubscriptionState
  import opened Channels

  /** Admitting an inner publisher takes one unit of a positive finite
      budget, and its normal completion gives the unit back; an unlimited
      budget is never used up. */
  lemma BudgetRoundTrip(budget: Demand)
    requires budget.Valid() && Greater(budget, Zero)
    ensures Plus(Minus(budget, Max(1)), Max(1)) == budget
    ensures budget.Unlimited? ==> Minus(budget, Max(1)) == Unlimited
    ensures budget.Max? ==> Minus(budget, Max(1)) == Max(budget.count - 1)
  {
  }

  class FlatMapChannel<O, E> {
    const id: SubId
    var event: SubscriberEvent
    var demand: Demand
    var maxPublishers: Demand
    var subscribedCount: int
    var completedCount: int
    /** The inner publishers' subscriptions. */
    var subscriptions: seq<SubId>
    var upstreamFailed: bool
    var newPublisherFailed: bool
    var sent: seq<Signal<O, E>>
    var calls: seq<UpCall>

    /** `subscribedCount` counts the upstream's subscription and every
        inner one kept; a subscribed edge holds the upstream's. */
    ghost predicate Valid()
      reads this
    {
      (event.Subscribed? ==> event.subscription.Some?) &&
      subscribedCount == |subscriptions| + (if event.Pending? then 0 else 1) &&
      completedCount >= 0 && maxPublishers.Valid()
    }

    constructor (id: SubId, maxPublishers: Demand)
      requires maxPublishers.Valid()
      ensures Valid() && this.id == id && event == Pending && this.maxPublishers == maxPublishers
      ensures subscribedCount == 0 && completedCount == 0 && subscriptions == [] && sent == [] && calls == []
    {
      this.id := id;
      event := Pending;
      demand := Zero;
      this.maxPublishers := maxPublishers;
      subscribedCount := 0;
      completedCount := 0;
      subscriptions := [];
      upstreamFailed := false;
      newPublisherFailed := false;
      sent := [];
      calls := [];
    }

    /** `receive(subscription:)`: the first upstream subscription is
        counted, handed on to the downstream, and asked for
        `maxPublishers` values. */
    method ReceiveSubscription(s: SubId)
      requires Valid()
      modifies this`event, this`subscribedCount, this`sent, this`calls
      ensures Valid()
      ensures !old(event).Pending? ==> event == old(event) && subscribedCount == old(subscribedCount) &&
                                       sent == old(sent) && calls == old(calls)
      ensures old(event).Pending? ==>
                event == Subscribed(Some(s), Open) && subscribedCount == old(subscribedCount) + 1 &&
                sent == old(sent) + [Subscribe(id)] && calls == old(calls) + [RequestCall(s, maxPublishers)]
    {
      if !event.Pending? {
        return;
      }
      event := Subscribed(Some(s), Open);
      subscribedCount := subscribedCount + 1;
      sent := sent + [Subscribe(id)];
      calls := calls + [RequestCall(s, maxPublishers)];
    }

    /** `receive(_:)`: while the budget is above `.none`, a value takes one
        unit and starts an inner publisher, whose subscriber is returned;
        otherwise it is dropped. Either way it returns `.none`. */
    method ReceiveInput() returns (d: Demand, inner: FlatMapNew?<O, E>)
      requires Valid()
      modifies this`maxPublishers
      ensures Valid() && d == Zero
      ensures old(event).IsOpen() && Greater(old(maxPublishers), Zero) ==>
                maxPublishers == Minus(old(maxPublishers), Max(1)) &&
                inner != null && fresh(inner) && inner.channel == this && inner.event == Pending
      ensures !(old(event).IsOpen() && Greater(old(maxPublishers), Zero)) ==>
                maxPublishers == old(maxPublishers) && inner == null
    {
      if !event.IsOpen() {
        return Zero, null;
      }
      if Greater(maxPublishers, Zero) {
        maxPublishers := Minus(maxPublishers, Max(1));
        inner := new FlatMapNew(this);
        return Zero, inner;
      }
      return Zero, null;
    }

    /** `checkAllCompleted()`: finished goes out once every counted
        subscription has completed. */
    method CheckAllCompleted()
      modifies this`sent
      ensures sent == if subscribedCount == completedCount then old(sent) + [Completed(Finished)] else old(sent)
    {
      if subscribedCount == completedCount {
        sent := sent + [Completed(Finished)];
      }
    }

    /** `receive(completion:)`: accepted once; a failure is forwarded at
        once, finished is counted and may finish the downstream. */
    method ReceiveCompletion(c: Completion<E>)
      requires Valid()
      modifies this`event, this`upstreamFailed, this`completedCount, this`sent
      ensures Valid()
      ensures !old(event).IsOpen() ==> event == old(event) && completedCount == old(completedCount) && sent == old(sent)
      ensures old(event).IsOpen() ==> event == SubscribedWith(old(event).subscription, IsFinished(c))
      ensures old(event).IsOpen() && c.Failure? ==>
                upstreamFailed && completedCount == old(completedCount) && sent == old(sent) + [Completed(c)]
      ensures old(event).IsOpen() && c.Finished? ==>
                completedCount == old(completedCount) + 1 &&
                sent == if subscribedCount == completedCount then old(sent) + [Completed(Finished)] else old(sent)
    {
      if !event.IsOpen() {
        return;
      }
      event := SubscribedWith(event.subscription, IsFinished(c));
      if c.Failure? {
        upstreamFailed := true;
        sent := sent + [Completed(c)];
      } else {
        completedCount := completedCount + 1;
        CheckAllCompleted();
      }
    }

    /** `cancel()`: while subscribed, every inner subscription is
        cancelled, then the upstream's, and the edge becomes cancelled. */
    method Cancel()
      requires Valid()
      modifies this`event, this`calls
      ensures !old(event).IsSubscribed() ==> event == old(event) && calls == old(calls)
      ensures old(event).IsSubscribed() ==>
                event == Cancelled &&
                calls == old(calls) + CancelAll(subscriptions) + [CancelCall(old(event).subscription.value)]
    {
      if !event.IsSubscribed() {
        return;
      }
      var i := 0;
      while i < |subscriptions|
        invariant 0 <= i <= |subscriptions| && event == old(event)
        invariant calls == old(calls) + CancelAll(subscriptions[..i])
      {
        assert subscriptions[..i + 1][..i] == subscriptions[..i];
        calls := calls + [CancelCall(subscriptions[i])];
        i := i + 1;
      }
      assert subscriptions[..i] == subscriptions;
      calls := calls + [CancelCall(event.subscription.value)];
      event := Cancelled;
    }

    /** `request(_:)`: while subscribed, the demand accumulates and is
        passed to the upstream only; inner publishers run unlimited. */
    method Request(d: Demand)
      requires Valid()
      modifies this`demand, this`calls
      ensures !old(event).IsSubscribed() ==> demand == old(demand) && calls == old(calls)
      ensures old(event).IsSubscribed() ==>
                demand == Plus(old(demand), d) && calls == old(calls) + [RequestCall(event.subscription.value, d)]
    {
      if !event.IsSubscribed() {
        return;
      }
      demand := Plus(demand, d);
      calls := calls + [RequestCall(event.subscription.value, d)];
    }

    /** `receiveNew(subscription:)`: an inner subscription is counted,
        kept, and asked for unlimited values. */
    method ReceiveNewSubscription(s: SubId)
      requires Valid() && !event.Pending?
      modifies this`subscribedCount, this`subscriptions, this`calls
      ensures Valid()
      ensures subscribedCount == old(subscribedCount) + 1 && subscriptions == old(subscriptions) + [s]
      ensures calls == old(calls) + [RequestCall(s, Unlimited)]
    {
      subscribedCount := subscribedCount + 1;
      subscriptions := subscriptions + [s];
      calls := calls + [RequestCall(s, Unlimited)];
    }

    /** `receiveNew(_:)`: an inner value goes straight to the downstream,
        whose answer is returned. */
    method ReceiveNewValue(x: O, reply: Demand) returns (d: Demand)
      modifies this`sent
      ensures d == reply && sent == old(sent) + [Value(x)]
    {
      sent := sent + [Value(x)];
      d := reply;
    }

    /** `receiveNew(completion:)`: an inner failure is forwarded at once;
        an inner finished gives back one unit of budget and is counted. */
    method ReceiveNewCompletion(c: Completion<E>)
      requires Valid()
      modifies this`newPublisherFailed, this`maxPublishers, this`completedCount, this`sent
      ensures Valid()
      ensures c.Failure? ==>
                newPublisherFailed && maxPublishers == old(maxPublishers) &&
                completedCount == old(completedCount) && sent == old(sent) + [Completed(c)]
      ensures c.Finished? ==>
                maxPublishers == Plus(old(maxPublishers), Max(1)) && completedCount == old(completedCount) + 1 &&
                sent == if subscribedCount == completedCount then old(sent) + [Completed(Finished)] else old(sent)
    {
      if c.Failure? {
        newPublisherFailed := true;
        sent := sent + [Completed(c)];
      } else {
        maxPublishers := Plus(maxPublishers, Max(1));
        completedCount := completedCount + 1;
        CheckAllCompleted();
      }
    }
  }

  /** `FlatMapNew`: the subscriber of one inner publisher. */
  class FlatMapNew<O, E> {
    const channel: FlatMapChannel<O, E>
    var event: SubscriberEvent

    constructor (channel: FlatMapChannel<O, E>)
      ensures this.channel == channel && event == Pending
    {
      this.channel := channel;
      event := Pending;
    }

    /** `receive(subscription:)`: its first subscription is recorded, and
        handed to the channel only while the channel is open. */
    method ReceiveSubscription(s: SubId)
      requires channel.Valid()
      modifies this`event, channel`subscribedCount, channel`subscriptions, channel`calls
      ensures channel.Valid()
      ensures event == AcceptSubscription(old(event), s).1
      ensures old(event).Pending? && channel.event.IsOpen() ==>
                channel.subscriptions == old(channel.subscriptions) + [s] &&
                channel.subscribedCount == old(channel.subscribedCount) + 1 &&
                channel.calls == old(channel.calls) + [RequestCall(s, Unlimited)]
      ensures !(old(event).Pending? && channel.event.IsOpen()) ==>
                channel.subscriptions == old(channel.subscriptions) &&
                channel.subscribedCount == old(channel.subscribedCount) && channel.calls == old(channel.calls)
    {
      if !event.Pending? {
        return;
      }
      event := Subscribed(Some(s), Open);
      if !channel.event.IsOpen() {
        return;
      }
      channel.ReceiveNewSubscription(s);
    }

    /** `receive(_:)`: while this inner edge is open, the value reaches the
        downstream whatever state the outer channel is in. */
    method ReceiveValue(x: O, reply: Demand) returns (d: Demand)
      modifies channel`sent
      ensures event.IsOpen() ==> d == reply && channel.sent == old(channel.sent) + [Value(x)]
      ensures !event.IsOpen() ==> d == Zero && channel.sent == old(channel.sent)
    {
      if !event.IsOpen() {
        return Zero;
      }
      d := channel.ReceiveNewValue(x, reply);
    }

    /** `receive(completion:)`: accepted once, then passed to the channel. */
    method ReceiveCompletion(c: Completion<E>)
      requires channel.Valid()
      modifies this`event, channel`newPublisherFailed, channel`maxPublishers, channel`completedCount, channel`sent
      ensures channel.Valid()
      ensures !old(event).IsOpen() ==>
                event == old(event) && channel.sent == old(channel.sent) &&
                channel.maxPublishers == old(channel.maxPublishers) && channel.completedCount == old(channel.completedCount)
      ensures old(event).IsOpen() ==> event == SubscribedWith(old(event).subscription, IsFinished(c))
      ensures old(event).IsOpen() && c.Finished? ==>
                channel.maxPublishers == Plus(old(channel.maxPublishers), Max(1)) &&
                channel.completedCount == old(channel.completedCount) + 1
      ensures old(event).IsOpen() && c.Failure? ==> channel.sent == old(channel.sent) + [Completed(c)]
    {
      if !event.IsOpen() {
        return;
      }
      event := SubscribedWith(event.subscription, IsFinished(c));
      channel.ReceiveNewCompletion(c);
    }
  }
}
