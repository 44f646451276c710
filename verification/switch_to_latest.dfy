/** `Channel.SwitchToLatest`: subscribes to each inner publisher the
    upstream sends, keeps only the latest one, and passes on that one's
    values. */
module SwitchToLatest {
  import opened Wrappers
  import opened Demands
  import opened Completions
  import opened Signals
  import opened SubscriptionState
  import opened Channels

  class SwitchToLatestChannel<O, E> {
    const id: SubId
    var event: SubscriberEvent
    var demand: Demand
    var latestSubscription: Option<SubId>
    var sent: seq<Signal<O, E>>
    var calls: seq<UpCall>

    ghost predicate Valid()
      reads this
    {
      event.Subscribed? ==> event.subscription.Some?
    }

    constructor (id: SubId)
      ensures Valid() && this.id == id && event == Pending && latestSubscription == None && sent == [] && calls == []
    {
      this.id := id;
      event := Pending;
      demand := Zero;
      latestSubscription := None;
      sent := [];
      calls := [];
    }

    /** `receive(subscription:)`: the first upstream subscription makes the
        downstream receive this channel. */
    method ReceiveSubscription(s: SubId)
      requires Valid()
      modifies this`event, this`sent
      ensures Valid() && event == AcceptSubscription(old(event), s).1
      ensures sent == if old(event).Pending? then old(sent) + [Subscribe(id)] else old(sent)
    {
      if !event.Pending? {
        return;
      }
      event := Subscribed(Some(s), Open);
      sent := sent + [Subscribe(id)];
    }

    /** `receive(_:)`: while open, the inner publisher is subscribed to by
        a new `SwitchToLatestNew`, returned here; always `.none`. */
    method ReceiveInput(innerId: SubId) returns (d: Demand, inner: SwitchToLatestNew?<O, E>)
      ensures d == Zero
      ensures event.IsOpen() ==>
                inner != null && fresh(inner) && inner.channel == this && inner.event == Pending &&
                inner.subscriptionIdentifier == innerId
      ensures !event.IsOpen() ==> inner == null
    {
      if !event.IsOpen() {
        return Zero, null;
      }
      inner := new SwitchToLatestNew(this, innerId);
      d := Zero;
    }

    /** `receive(completion:)`: accepted once and forwarded, finished
        included, whatever the latest inner publisher is doing. */
    method ReceiveCompletion(c: Completion<E>)
      requires Valid()
      modifies this`event, this`sent
      ensures Valid() && event == AcceptCompletion(old(event), IsFinished(c)).1
      ensures sent == if old(event).IsOpen() then old(sent) + [Completed(c)] else old(sent)
    {
      if !event.IsOpen() {
        return;
      }
      event := SubscribedWith(event.subscription, IsFinished(c));
      sent := sent + [Completed(c)];
    }

    /** `cancel()`: while subscribed, cancels the upstream and the latest
        inner subscription, forgets the latter, and becomes cancelled. */
    method Cancel()
      requires Valid()
      modifies this`event, this`latestSubscription, this`calls
      ensures Valid()
      ensures !old(event).IsSubscribed() ==>
                event == old(event) && latestSubscription == old(latestSubscription) && calls == old(calls)
      ensures old(event).IsSubscribed() ==>
                event == Cancelled && latestSubscription == None &&
                calls == old(calls) + [CancelCall(old(event).subscription.value)] +
                         (if old(latestSubscription).Some? then [CancelCall(old(latestSubscription).value)] else [])
    {
      if !event.IsSubscribed() {
        return;
      }
      calls := calls + [CancelCall(event.subscription.value)];
      if latestSubscription.Some? {
        calls := calls + [CancelCall(latestSubscription.value)];
      }
      latestSubscription := None;
      event := Cancelled;
    }

    /** `request(_:)`: while subscribed, accumulates and asks the upstream. */
    method Request(d: Demand)
      requires Valid()
      modifies this`demand, this`calls
      ensures !old(event).IsSubscribed() ==> demand == old(demand) && calls == old(calls)
      ensures old(event).IsSubscribed() ==>
                demand == Plus(old(demand), d) && calls == old(calls) + [RequestCall(event.subscription.value, d)]
    {
      if !event.IsSubscribed() {
        return;
      }
      demand := Plus(demand, d);
      calls := calls + [RequestCall(event.subscription.value, d)];
    }

    /** `receiveLatest(subscription:)`: the previous latest inner
        subscription is cancelled and replaced, and the new one is asked
        for unlimited values. */
    method ReceiveLatest(s: SubId)
      modifies this`latestSubscription, this`calls
      ensures latestSubscription == Some(s)
      ensures calls == old(calls) +
                       (if old(latestSubscription).Some? then [CancelCall(old(latestSubscription).value)] else []) +
                       [RequestCall(s, Unlimited)]
    {
      if latestSubscription.Some? {
        calls := calls + [CancelCall(latestSubscription.value)];
      }
      latestSubscription := Some(s);
      calls := calls + [RequestCall(s, Unlimited)];
    }
  }

  /** `SwitchToLatestNew`: the subscriber of one inner publisher. Its own
      event embeds the empty subscription; the real one is known by
      `subscriptionIdentifier` and held by the channel while latest. */
  class SwitchToLatestNew<O, E> {
    const channel: SwitchToLatestChannel<O, E>
    var event: SubscriberEvent
    var demand: Demand
    var subscriptionIdentifier: SubId

    constructor (channel: SwitchToLatestChannel<O, E>, identifier: SubId)
      ensures this.channel == channel && event == Pending && subscriptionIdentifier == identifier
    {
      this.channel := channel;
      event := Pending;
      demand := Zero;
      subscriptionIdentifier := identifier;
    }

    /** This inner edge is open and its subscription is the channel's
        latest. */
    predicate IsLatest()
      reads this, channel
    {
      event.IsOpen() && channel.latestSubscription == Some(subscriptionIdentifier)
    }

    /** `receive(subscription:)`: the first subscription becomes the
        channel's latest. */
    method ReceiveSubscription(s: SubId)
      modifies this`event, this`subscriptionIdentifier, channel`latestSubscription, channel`calls
      ensures !old(event).Pending? ==>
                event == old(event) && subscriptionIdentifier == old(subscriptionIdentifier) &&
                channel.latestSubscription == old(channel.latestSubscription) && channel.calls == old(channel.calls)
      ensures old(event).Pending? ==>
                event == Subscribed(Some(EmptySubscription), Open) && subscriptionIdentifier == s &&
                channel.latestSubscription == Some(s) && IsLatest() &&
                channel.calls == old(channel.calls) +
                                 (if old(channel.latestSubscription).Some? then [CancelCall(old(channel.latestSubscription).value)] else []) +
                                 [RequestCall(s, Unlimited)]
    {
      if !event.Pending? {
        return;
      }
      subscriptionIdentifier := s;
      event := Subscribed(Some(EmptySubscription), Open);
      channel.ReceiveLatest(s);
    }

    /** `receive(_:)`: only the latest inner publisher's values reach the
        downstream; any other's are dropped with `.none`. */
    method ReceiveValue(x: O, reply: Demand) returns (d: Demand)
      modifies channel`sent
      ensures IsLatest() ==> d == reply && channel.sent == old(channel.sent) + [Value(x)]
      ensures !IsLatest() ==> d == Zero && channel.sent == old(channel.sent)
    {
      if !IsLatest() {
        return Zero;
      }
      channel.sent := channel.sent + [Value(x)];
      d := reply;
    }

    /** `receive(completion:)`: only the latest inner publisher's
        completion is accepted; its failure goes to the channel's guarded
        completion, and its finished is dropped. */
    method ReceiveCompletion(c: Completion<E>)
      requires channel.Valid()
      modifies this`event, channel`event, channel`sent
      ensures channel.Valid()
      ensures !old(IsLatest()) ==> event == old(event) && channel.event == old(channel.event) && channel.sent == old(channel.sent)
      ensures old(IsLatest()) ==> event == SubscribedWith(old(event).subscription, IsFinished(c))
      ensures old(IsLatest()) && c.Finished? ==> channel.event == old(channel.event) && channel.sent == old(channel.sent)
      ensures old(IsLatest()) && c.Failure? ==>
                channel.event == AcceptCompletion(old(channel.event), false).1 &&
                channel.sent == if old(channel.event).IsOpen() then old(channel.sent) + [Completed(c)] else old(channel.sent)
    {
      if !IsLatest() {
        return;
      }
      event := SubscribedWith(event.subscription, IsFinished(c));
      if c.Failure? {
        channel.ReceiveCompletion(c);
      }
    }

    /** `request(_:)`: accumulates while subscribed, and is passed to the
        latest subscription only while this edge is the latest. */
    method Request(d: Demand)
      modifies this`demand, channel`calls
      ensures demand == if old(event).IsSubscribed() then Plus(old(demand), d) else old(demand)
      ensures old(IsLatest()) ==> channel.calls == old(channel.calls) + [RequestCall(subscriptionIdentifier, d)]
      ensures !old(IsLatest()) ==> channel.calls == old(channel.calls)
    {
      if !event.IsSubscribed() {
        return;
      }
      demand := Plus(demand, d);
      if !IsLatest() {
        return;
      }
      channel.calls := channel.calls + [RequestCall(channel.latestSubscription.value, d)];
    }
  }
}
