/** `Channel.Concatenate`, behind `append` and `prepend`: republishes the
    prefix publisher, and once it finishes subscribes itself to the suffix
    publisher and republishes that. The same channel object is the
    subscriber of both; the downstream sees one subscription throughout. */
module Concatenate {
  import opened Wrappers
  import opened Demands
  import opened Completions
  import opened Signals
  import opened SubscriptionState
  import opened Channels

  class ConcatenateChannel<O, E> {
    const chan: Channel<O, E>
    var isPrefixCompleted: bool
    /** `suffixUpStream` is still held (it is dropped once subscribed to). */
    var suffixHeld: bool
    /** How many times the channel has subscribed itself to the suffix. */
    var suffixSubscriptions: nat

    /** The suffix is held until the prefix finishes, and then subscribed
        to exactly once; the downstream receives at most one subscription,
        and none before the prefix's. */
    ghost predicate Valid()
      reads this, chan
    {
      (suffixHeld <==> !isPrefixCompleted) &&
      suffixSubscriptions == (if isPrefixCompleted then 1 else 0) &&
      SubscribeCount(chan.sent) <= 1 &&
      (!isPrefixCompleted && chan.event.Pending? ==> SubscribeCount(chan.sent) == 0)
    }

    constructor (id: SubId)
      ensures Valid() && fresh(chan) && chan.id == id && chan.event == Pending && chan.demand == Zero
      ensures chan.sent == [] && chan.calls == []
      ensures !isPrefixCompleted && suffixHeld && suffixSubscriptions == 0
    {
      chan := new Channel(id);
      isPrefixCompleted := false;
      suffixHeld := true;
      suffixSubscriptions := 0;
    }

    /** `receive(subscription:)`: the prefix's subscription is handed on
        as this channel; the suffix's is asked for the demand accumulated
        so far, and the downstream is not subscribed again. */
    method ReceiveSubscription(s: SubId)
      requires Valid()
      modifies chan`event, chan`sent, chan`calls
      ensures Valid()
      ensures chan.event == AcceptSubscription(old(chan.event), s).1
      ensures !old(chan.event).Pending? ==> chan.sent == old(chan.sent) && chan.calls == old(chan.calls)
      ensures old(chan.event).Pending? && !isPrefixCompleted ==>
                chan.sent == old(chan.sent) + [Subscribe(chan.id)] && chan.calls == old(chan.calls)
      ensures old(chan.event).Pending? && isPrefixCompleted ==>
                chan.sent == old(chan.sent) && chan.calls == old(chan.calls) + [RequestCall(s, chan.demand)]
    {
      var ok := chan.ShouldReceive(s);
      if !ok {
        return;
      }
      if isPrefixCompleted {
        chan.calls := chan.calls + [RequestCall(s, chan.demand)];
      } else {
        chan.Deliver(Subscribe(chan.id));
        SubscribeCountSnoc(old(chan.sent), Subscribe(chan.id));
      }
    }

    /** `receive(_:)`: guarded only by being subscribed, so values still
        pass after a completion has been forwarded. */
    method ReceiveValue(x: O, reply: Demand) returns (d: Demand)
      requires Valid()
      modifies chan`sent
      ensures Valid()
      ensures old(chan.event).IsSubscribed() ==> d == reply && chan.sent == old(chan.sent) + [Value(x)]
      ensures !old(chan.event).IsSubscribed() ==> d == Zero && chan.sent == old(chan.sent)
    {
      if !chan.event.IsSubscribed() {
        return Zero;
      }
      chan.Deliver(Value(x));
      SubscribeCountSnoc(old(chan.sent), Value(x));
      d := reply;
    }

    /** `receive(completion:)`: the prefix finishing resets the channel to
        pending and subscribes it to the suffix, once; a prefix failure is
        forwarded (leaving the state as it was); a suffix completion is
        accepted once and forwarded. */
    method ReceiveCompletion(c: Completion<E>)
      requires Valid()
      modifies this, chan`event, chan`sent
      ensures Valid()
      ensures !old(isPrefixCompleted) && c.Finished? ==>
                chan.event == Pending && isPrefixCompleted && !suffixHeld &&
                suffixSubscriptions == old(suffixSubscriptions) + 1 && chan.sent == old(chan.sent)
      ensures !old(isPrefixCompleted) && c.Failure? ==>
                chan.event == old(chan.event) && !isPrefixCompleted && suffixSubscriptions == old(suffixSubscriptions) &&
                chan.sent == old(chan.sent) + [Completed(c)]
      ensures old(isPrefixCompleted) ==>
                isPrefixCompleted && suffixSubscriptions == old(suffixSubscriptions) &&
                chan.event == AcceptCompletion(old(chan.event), IsFinished(c)).1 &&
                chan.sent == if old(chan.event).IsOpen() then old(chan.sent) + [Completed(c)] else old(chan.sent)
    {
      SubscribeCountSnoc(chan.sent, Completed(c));
      if !isPrefixCompleted {
        if c.Finished? {
          chan.event := Pending;
          isPrefixCompleted := true;
          if suffixHeld {
            suffixSubscriptions := suffixSubscriptions + 1;
          }
          suffixHeld := false;
        } else {
          chan.Deliver(Completed(c));
        }
      } else {
        var ok := chan.ShouldReceiveCompletion(c);
        if ok {
          chan.Deliver(Completed(c));
        }
      }
    }

    /** `cancel()`, inherited: cancels whichever upstream subscription the
        channel currently embeds. */
    method Cancel()
      requires Valid()
      modifies chan`event, chan`calls
      ensures Valid()
      ensures old(chan.event).EmbeddedSubscription().Some? ==>
                chan.event == Cancelled && chan.calls == old(chan.calls) + [CancelCall(old(chan.event).subscription.value)]
      ensures old(chan.event).EmbeddedSubscription().None? ==> chan.event == old(chan.event) && chan.calls == old(chan.calls)
    {
      chan.Cancel();
    }

    /** `request(_:)`, inherited: accumulates the demand while subscribed
        and passes it to the current upstream subscription. */
    method Request(d: Demand)
      requires Valid()
      modifies chan`demand, chan`calls
      ensures Valid()
      ensures chan.demand == if chan.event.IsSubscribed() then Plus(old(chan.demand), d) else old(chan.demand)
      ensures chan.calls == if chan.event.EmbeddedSubscription().Some?
                            then old(chan.calls) + [RequestCall(chan.event.subscription.value, d)]
                            else old(chan.calls)
    {
      chan.Request(d);
    }
  }
}
