/** `Channel.Merge`, shared by `Merge` ... `Merge8` and `MergeMany`: one
    channel subscribed to every upstream. The first upstream subscription
    is the one the channel embeds; the others are kept in `subscriptions`
    and asked for unlimited values. */
module Merge {
  import opened Wrappers
  import opened Demands
  import opened Completions
  import opened Signals
  import opened SubscriptionState
  import opened Channels

  class MergeChannel<O, E> {
    const chan: Channel<O, E>
    /** How many upstream subscriptions have been let in. */
    var index: nat
    /** Every upstream subscription after the first. */
    var subscriptions: seq<SubId>

    /** The channel leaves the pending state with the first upstream
        subscription, and from then on the downstream has received exactly
        one subscription: this channel. */
    ghost predicate Valid()
      reads this, chan
    {
      chan.Valid() &&
      (index == 0 <==> chan.event.Pending?) &&
      (index == 0 ==> subscriptions == []) &&
      SubscribeCount(chan.sent) == (if index == 0 then 0 else 1)
    }

    constructor (id: SubId)
      ensures Valid() && fresh(chan) && chan.id == id && chan.event == Pending && chan.sent == [] && chan.calls == []
      ensures index == 0 && subscriptions == []
    {
      chan := new Channel(id);
      index := 0;
      subscriptions := [];
    }

    /** `receive(subscription:)`: the first subscription opens the channel
        and is handed on as this channel; each later one, unless the
        channel was cancelled, is kept and asked for unlimited values. */
    method ReceiveSubscription(s: SubId)
      requires Valid()
      modifies this, chan
      ensures Valid()
      ensures old(index) == 0 ==>
                index == 1 && subscriptions == [] && chan.event == Subscribed(Some(s), Open) &&
                chan.sent == old(chan.sent) + [Subscribe(chan.id)] && chan.calls == old(chan.calls)
      ensures old(index) > 0 && old(chan.event).Cancelled? ==>
                index == old(index) && subscriptions == old(subscriptions) && chan.event == old(chan.event) &&
                chan.sent == old(chan.sent) && chan.calls == old(chan.calls)
      ensures old(index) > 0 && !old(chan.event).Cancelled? ==>
                index == old(index) + 1 && subscriptions == old(subscriptions) + [s] && chan.event == old(chan.event) &&
                chan.sent == old(chan.sent) && chan.calls == old(chan.calls) + [RequestCall(s, Unlimited)]
    {
      if index > 0 {
        if chan.event.Cancelled? {
          return;
        }
        subscriptions := subscriptions + [s];
        chan.calls := chan.calls + [RequestCall(s, Unlimited)];
      }
      index := index + 1;
      chan.TransformReceiveSubscription(s);
      SubscribeCountSnoc(old(chan.sent), Subscribe(chan.id));
    }

    /** `receive(_:)`: while open, every upstream's values go straight to
        the downstream, whose answer is returned. */
    method ReceiveValue(x: O, reply: Demand) returns (d: Demand)
      requires Valid()
      modifies chan
      ensures Valid()
      ensures chan.event == old(chan.event) && chan.calls == old(chan.calls)
      ensures old(chan.event).IsOpen() ==> d == reply && chan.sent == old(chan.sent) + [Value(x)]
      ensures !old(chan.event).IsOpen() ==> d == Zero && chan.sent == old(chan.sent)
    {
      if !chan.IsOpen() {
        return Zero;
      }
      d := chan.Forward(Emit(x), reply);
      SubscribeCountSnoc(old(chan.sent), Value(x));
    }

    /** `receive(completion:)`: the first completion from any upstream
        completes the downstream; the others are dropped. */
    method ReceiveCompletion(c: Completion<E>)
      requires Valid()
      modifies chan
      ensures Valid()
      ensures chan.event == AcceptCompletion(old(chan.event), IsFinished(c)).1 && chan.calls == old(chan.calls)
      ensures chan.sent == if old(chan.event).IsOpen() then old(chan.sent) + [Completed(c)] else old(chan.sent)
    {
      var _ := chan.AnonymousReceiveCompletion(c);
      SubscribeCountSnoc(old(chan.sent), Completed(c));
    }

    /** `cancel()`: while subscribed, cancels the first subscription and
        then every other one, in order, and becomes cancelled. */
    method Cancel()
      requires Valid()
      modifies chan
      ensures Valid()
      ensures chan.sent == old(chan.sent) && chan.demand == old(chan.demand)
      ensures !old(chan.event).IsSubscribed() ==> chan.event == old(chan.event) && chan.calls == old(chan.calls)
      ensures old(chan.event).IsSubscribed() ==>
                chan.event == Cancelled &&
                chan.calls == old(chan.calls) + [CancelCall(old(chan.event).subscription.value)] + CancelAll(subscriptions)
    {
      if !chan.ShouldCancel() {
        return;
      }
      chan.calls := chan.calls + [CancelCall(chan.event.subscription.value)];
      ghost var start := chan.calls;
      var i := 0;
      while i < |subscriptions|
        invariant 0 <= i <= |subscriptions|
        invariant chan.event == old(chan.event) && chan.sent == old(chan.sent) && chan.demand == old(chan.demand)
        invariant chan.calls == start + CancelAll(subscriptions[..i])
      {
        assert subscriptions[..i + 1][..i] == subscriptions[..i];
        chan.calls := chan.calls + [CancelCall(subscriptions[i])];
        i := i + 1;
      }
      assert subscriptions[..i] == subscriptions;
      chan.event := Cancelled;
    }

    /** `request(_:)`: while subscribed, adds to the stored demand and asks
        the first subscription and then every other one for it. */
    method Request(d: Demand)
      requires Valid()
      modifies chan
      ensures Valid()
      ensures chan.sent == old(chan.sent) && chan.event == old(chan.event)
      ensures !old(chan.event).IsSubscribed() ==> chan.demand == old(chan.demand) && chan.calls == old(chan.calls)
      ensures old(chan.event).IsSubscribed() ==>
                chan.demand == Plus(old(chan.demand), d) &&
                chan.calls == old(chan.calls) + [RequestCall(chan.event.subscription.value, d)] + RequestAll(subscriptions, d)
    {
      var ok := chan.ShouldRequest(d);
      if !ok {
        return;
      }
      chan.calls := chan.calls + [RequestCall(chan.event.subscription.value, d)];
      ghost var start := chan.calls;
      var i := 0;
      while i < |subscriptions|
        invariant 0 <= i <= |subscriptions|
        invariant chan.event == old(chan.event) && chan.sent == old(chan.sent) && chan.demand == Plus(old(chan.demand), d)
        invariant chan.calls == start + RequestAll(subscriptions[..i], d)
      {
        assert subscriptions[..i + 1][..i] == subscriptions[..i];
        chan.calls := chan.calls + [RequestCall(subscriptions[i], d)];
        i := i + 1;
      }
      assert subscriptions[..i] == subscriptions;
    }
  }

  /** However many upstreams complete, the downstream of a merge receives
      at most one completion. */
  lemma CompletesAtMostOnce<O, E>(m: MergeChannel<O, E>)
    requires m.Valid()
    ensures CompletionCount(m.chan.sent) <= 1
  {
    DisciplinedCompletesOnce(m.chan.sent);
  }
}
