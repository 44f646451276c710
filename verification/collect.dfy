/** `collect()` and `collect(_ count:)`: anonymous channels whose closures
    gather the inputs into arrays. */
module Collect {
  import opened Wrappers
  import opened Demands
  import opened Completions
  import opened Signals
  import opened SubscriptionState
  import opened Channels

  /** What `collect()` publishes for inputs `xs`: after each input, the
      whole array gathered so far. */
  function Prefixes<V>(xs: seq<V>): seq<seq<V>>
  {
    if xs == [] then [] else Prefixes(xs[..|xs| - 1]) + [xs]
  }

  /** The n-th published array is the first n inputs, so each array extends
      the one before it and the last one holds every input. */
  lemma {:induction false} PrefixesAt<V>(xs: seq<V>)
    ensures |Prefixes(xs)| == |xs|
    ensures forall n :: 1 <= n <= |xs| ==> Prefixes(xs)[n - 1] == xs[..n]
  {
    if xs != [] {
      var ys := xs[..|xs| - 1];
      PrefixesAt(ys);
      forall n | 1 <= n <= |xs|
        ensures Prefixes(xs)[n - 1] == xs[..n]
      {
        if n < |xs| {
          assert xs[..n] == ys[..n];
        }
      }
    }
  }

  /** A `collect()` channel. `outputs` is the array the closures capture. */
  class CollectChannel<V, E> {
    const chan: Channel<seq<V>, E>
    var outputs: seq<V>

    /** The downstream has received one array per input gathered. */
    ghost predicate Valid()
      reads this, chan
    {
      chan.Valid() && Values(chan.sent) == Prefixes(outputs)
    }

    constructor (id: SubId)
      ensures Valid() && fresh(chan) && chan.id == id && chan.event == Pending && chan.sent == []
      ensures outputs == []
    {
      chan := new Channel(id);
      outputs := [];
    }

    method ReceiveSubscription(s: SubId)
      requires Valid()
      modifies chan
      ensures Valid()
      ensures chan.event == AcceptSubscription(old(chan.event), s).1
      ensures chan.sent == if old(chan.event).Pending? then old(chan.sent) + [Subscribe(chan.id)] else old(chan.sent)
    {
      chan.TransformReceiveSubscription(s);
      ValuesAppend(old(chan.sent), [Subscribe(chan.id)]);
      ValuesOfOne<seq<V>, E>(Subscribe(chan.id));
    }

    /** Appends the input and publishes the whole array, returning the
        downstream's answer. */
    method ReceiveInput(x: V, reply: Demand) returns (d: Demand)
      requires Valid()
      modifies this, chan
      ensures Valid()
      ensures !old(chan.event.IsOpen()) ==> d == Zero && outputs == old(outputs) && chan.sent == old(chan.sent)
      ensures old(chan.event.IsOpen()) ==>
                d == reply && outputs == old(outputs) + [x] && chan.sent == old(chan.sent) + [Value(outputs)]
    {
      if !chan.IsOpen() {
        return Zero;
      }
      outputs := outputs + [x];
      ValuesAppendValue(chan.sent, outputs);
      chan.Deliver(Value(outputs));
      d := reply;
    }

    /** The completion is passed on; nothing more is published. */
    method ReceiveCompletion(c: Completion<E>)
      requires Valid()
      modifies chan
      ensures Valid()
      ensures chan.sent == if old(chan.event).IsOpen() then old(chan.sent) + [Completed(c)] else old(chan.sent)
    {
      ValuesAppendCompletion(chan.sent, c);
      var _ := chan.AnonymousReceiveCompletion(c);
    }
  }

  /** What `collect(count)` has published and still holds after inputs
      `xs`: full batches, and the batch being filled. */
  function Batches<V>(count: Int, xs: seq<V>): (seq<seq<V>>, seq<V>)
  {
    if xs == [] then ([], [])
    else
      var (full, filling) := Batches(count, xs[..|xs| - 1]);
      var next := filling + [xs[|xs| - 1]];
      if |next| == count then (full + [next], []) else (full, next)
  }

  function Flatten<V>(bs: seq<seq<V>>): seq<V>
  {
    if bs == [] then [] else Flatten(bs[..|bs| - 1]) + bs[|bs| - 1]
  }

  /** The batches and the filling buffer hold every input once, in order;
      every published batch has exactly `count` inputs, the filling buffer
      stays below `count`, and a `count` below 1 never publishes. */
  lemma {:induction false} BatchesPartition<V>(count: Int, xs: seq<V>)
    ensures Flatten(Batches(count, xs).0) + Batches(count, xs).1 == xs
    ensures forall b :: b in Batches(count, xs).0 ==> |b| == count
    ensures count >= 1 ==> |Batches(count, xs).1| < count
    ensures count < 1 ==> Batches(count, xs).0 == [] && Batches(count, xs).1 == xs
  {
    if xs != [] {
      var ys, x := xs[..|xs| - 1], xs[|xs| - 1];
      assert ys + [x] == xs;
      BatchesPartition(count, ys);
      BatchesSnoc(count, ys, x);
      var full, filling := Batches(count, ys).0, Batches(count, ys).1;
      if |filling + [x]| == count {
        FlattenSnoc(full, filling + [x]);
        assert Flatten(full + [filling + [x]]) + [] == (Flatten(full) + filling) + [x];
      } else {
        assert Flatten(full) + (filling + [x]) == (Flatten(full) + filling) + [x];
      }
    }
  }

  lemma BatchesSnoc<V>(count: Int, xs: seq<V>, x: V)
    ensures var next := Batches(count, xs).1 + [x];
            Batches(count, xs + [x]) ==
              if |next| == count then (Batches(count, xs).0 + [next], []) else (Batches(count, xs).0, next)
  {
    assert (xs + [x])[..|xs|] == xs;
  }

  lemma FlattenSnoc<V>(bs: seq<seq<V>>, b: seq<V>)
    ensures Flatten(bs + [b]) == Flatten(bs) + b
  {
    assert (bs + [b])[..|bs|] == bs;
  }

  /** A `collect(count)` channel. `outputs` is the captured buffer. */
  class CollectByCountChannel<V, E> {
    const chan: Channel<seq<V>, E>
    const count: Int
    var outputs: seq<V>
    /** The inputs the value closure has run on. */
    ghost var inputs: seq<V>

    /** The downstream has received the full batches, and `outputs` holds
        the batch being filled. */
    ghost predicate Valid()
      reads this, chan
    {
      chan.Valid() && Values(chan.sent) == Batches(count, inputs).0 && outputs == Batches(count, inputs).1
    }

    constructor (id: SubId, count: Int)
      ensures Valid() && fresh(chan) && chan.id == id && chan.event == Pending && chan.sent == []
      ensures this.count == count && outputs == [] && inputs == []
    {
      chan := new Channel(id);
      this.count := count;
      outputs := [];
      inputs := [];
    }

    method ReceiveSubscription(s: SubId)
      requires Valid()
      modifies chan
      ensures Valid()
      ensures chan.event == AcceptSubscription(old(chan.event), s).1
      ensures chan.sent == if old(chan.event).Pending? then old(chan.sent) + [Subscribe(chan.id)] else old(chan.sent)
    {
      chan.TransformReceiveSubscription(s);
      ValuesAppend(old(chan.sent), [Subscribe(chan.id)]);
      ValuesOfOne<seq<V>, E>(Subscribe(chan.id));
    }

    /** Appends the input; a buffer that reaches `count` is published,
        emptied, and the downstream's answer returned, otherwise
        `.unlimited` is returned. */
    method ReceiveInput(x: V, reply: Demand) returns (d: Demand)
      requires Valid()
      modifies this, chan
      ensures Valid()
      ensures !old(chan.event.IsOpen()) ==> d == Zero && outputs == old(outputs) && inputs == old(inputs) && chan.sent == old(chan.sent)
      ensures old(chan.event.IsOpen()) ==> inputs == old(inputs) + [x]
      ensures old(chan.event.IsOpen()) && |old(outputs)| + 1 == count ==>
                d == reply && outputs == [] && chan.sent == old(chan.sent) + [Value(old(outputs) + [x])]
      ensures old(chan.event.IsOpen()) && |old(outputs)| + 1 != count ==>
                d == Unlimited && outputs == old(outputs) + [x] && chan.sent == old(chan.sent)
    {
      if !chan.IsOpen() {
        return Zero;
      }
      assert (inputs + [x])[..|inputs|] == inputs;
      inputs := inputs + [x];
      outputs := outputs + [x];
      if |outputs| == count {
        var values := outputs;
        outputs := [];
        ValuesAppendValue(chan.sent, values);
        chan.Deliver(Value(values));
        d := reply;
      } else {
        d := Unlimited;
      }
    }

    /** The completion is passed on; a partly filled batch is not
        published. */
    method ReceiveCompletion(c: Completion<E>)
      requires Valid()
      modifies chan
      ensures Valid()
      ensures chan.sent == if old(chan.event).IsOpen() then old(chan.sent) + [Completed(c)] else old(chan.sent)
    {
      ValuesAppendCompletion(chan.sent, c);
      var _ := chan.AnonymousReceiveCompletion(c);
    }
  }
}
