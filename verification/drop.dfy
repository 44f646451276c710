/** `dropFirst(_ count:)`: an anonymous channel whose value closure
    swallows the first `count` inputs, counting them in a captured
    variable. */
module Drop {
  import opened Wrappers
  import opened Demands
  import opened Completions
  import opened Signals
  import opened SubscriptionState
  import opened Channels

  /** How many of `n` inputs are swallowed: the counter's value. */
  function Swallowed(count: Int, n: nat): (k: nat)
    ensures k <= n
    ensures count <= 0 ==> k == 0
    ensures count > 0 ==> k == if n < count then n else count
  {
    if n == 0 then 0
    else
      var before := Swallowed(count, n - 1);
      if before < count then before + 1 else before
  }

  /** The values forwarded for inputs `xs`. */
  function Forwarded<V>(count: Int, xs: seq<V>): seq<V>
  {
    if xs == [] then []
    else Forwarded(count, xs[..|xs| - 1]) + (if Swallowed(count, |xs| - 1) < count then [] else [xs[|xs| - 1]])
  }

  lemma ForwardedSnoc<V>(count: Int, xs: seq<V>, x: V)
    ensures Forwarded(count, xs + [x]) ==
              if Swallowed(count, |xs|) < count then Forwarded(count, xs) else Forwarded(count, xs) + [x]
  {
    assert (xs + [x])[..|xs|] == xs;
    if Swallowed(count, |xs|) < count {
      assert Forwarded(count, xs) + [] == Forwarded(count, xs);
    }
  }

  /** The forwarded values are the inputs with the first `count` removed. */
  lemma {:induction false} ForwardedDropsFirst<V>(count: Int, xs: seq<V>)
    ensures Forwarded(count, xs) == xs[Swallowed(count, |xs|)..]
  {
    if xs != [] {
      var ys := xs[..|xs| - 1];
      ForwardedDropsFirst(count, ys);
      if Swallowed(count, |ys|) >= count {
        assert ys[Swallowed(count, |ys|)..] + [xs[|xs| - 1]] == xs[Swallowed(count, |ys|)..];
      }
    }
  }

  /** A `dropFirst` channel; `counter` is the captured `count` variable. */
  class DropChannel<V, E> {
    const chan: Channel<V, E>
    const count: Int
    var counter: Int
    /** The inputs the value closure has run on. */
    ghost var inputs: seq<V>

    /** The counter has counted the swallowed inputs, never more than
        `count`, and the downstream has received the rest. */
    ghost predicate Valid()
      reads this, chan
    {
      chan.Valid() &&
      counter == Swallowed(count, |inputs|) &&
      Values(chan.sent) == Forwarded(count, inputs)
    }

    constructor (id: SubId, count: Int)
      ensures Valid() && fresh(chan) && chan.id == id && chan.event == Pending && chan.sent == []
      ensures this.count == count && counter == 0 && inputs == []
    {
      chan := new Channel(id);
      this.count := count;
      counter := 0;
      inputs := [];
    }

    method ReceiveSubscription(s: SubId)
      requires Valid()
      modifies chan
      ensures Valid()
      ensures chan.event == AcceptSubscription(old(chan.event), s).1
      ensures chan.sent == if old(chan.event).Pending? then old(chan.sent) + [Subscribe(chan.id)] else old(chan.sent)
    {
      chan.TransformReceiveSubscription(s);
      ValuesAppend(old(chan.sent), [Subscribe(chan.id)]);
      ValuesOfOne<V, E>(Subscribe(chan.id));
    }

    /** While the counter is below `count`, the input is swallowed and
        `.none` returned; afterwards it is forwarded, the downstream's
        answer ignored, and `.unlimited` returned. */
    method ReceiveInput(x: V, reply: Demand) returns (d: Demand)
      requires Valid()
      modifies this, chan
      ensures Valid()
      ensures counter <= count || counter == 0
      ensures !old(chan.event.IsOpen()) ==> d == Zero && counter == old(counter) && inputs == old(inputs) && chan.sent == old(chan.sent)
      ensures old(chan.event.IsOpen()) ==> inputs == old(inputs) + [x]
      ensures old(chan.event.IsOpen()) && old(counter) < count ==>
                d == Zero && counter == old(counter) + 1 && chan.sent == old(chan.sent)
      ensures old(chan.event.IsOpen()) && old(counter) >= count ==>
                d == Unlimited && counter == old(counter) && chan.sent == old(chan.sent) + [Value(x)]
    {
      if !chan.IsOpen() {
        return Zero;
      }
      ForwardedSnoc(count, inputs, x);
      inputs := inputs + [x];
      if counter < count {
        counter := counter + 1;
        return Zero;
      }
      ValuesAppendValue(chan.sent, x);
      chan.Deliver(Value(x));
      d := Unlimited;
    }

    method ReceiveCompletion(c: Completion<E>)
      requires Valid()
      modifies chan
      ensures Valid()
      ensures chan.sent == if old(chan.event).IsOpen() then old(chan.sent) + [Completed(c)] else old(chan.sent)
    {
      ValuesAppendCompletion(chan.sent, c);
      var _ := chan.AnonymousReceiveCompletion(c);
    }
  }
}
