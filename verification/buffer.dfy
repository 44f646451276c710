/** `buffer(size:prefetch:whenFull:)`: an anonymous channel whose value
    closure appends to a captured array, trims it when it reaches `size`,
    and then delivers the whole array. */
module Buffer {
  import opened Wrappers
  import opened Demands
  import opened Completions
  import opened Signals
  import opened SubscriptionState
  import opened Channels

  datatype PrefetchStrategy = KeepFull | ByRequest

  /** `customError(make)` is represented by the error `make()` returns. */
  datatype BufferingStrategy<+E> = DropNewest | DropOldest | CustomError(error: E)

  /** The array after appending `x`: when it reaches `size`, `dropNewest`
      removes the last element and `dropOldest` the first. */
  function Store<V, E>(size: Int, whenFull: BufferingStrategy<E>, outputs: seq<V>, x: V): (r: seq<V>)
    ensures |outputs + [x]| != size || whenFull.CustomError? ==> r == outputs + [x]
    ensures |outputs + [x]| == size && whenFull.DropNewest? ==> r == outputs
    ensures |outputs + [x]| == size && whenFull.DropOldest? ==> r == (outputs + [x])[1..]
  {
    var next := outputs + [x];
    if |next| == size then
      match whenFull
      case DropNewest => next[..|next| - 1]
      case DropOldest => next[1..]
      case CustomError(_) => next
    else next
  }

  /** Whether appending `x` makes `customError` fail the stream. */
  predicate Overflows<V, E>(size: Int, whenFull: BufferingStrategy<E>, outputs: seq<V>, x: V) {
    |outputs| + 1 == size && whenFull.CustomError?
  }

  /** The array after the value closure has run on each of `xs`. */
  function Buffered<V, E>(size: Int, whenFull: BufferingStrategy<E>, xs: seq<V>): seq<V>
  {
    if xs == [] then [] else Store(size, whenFull, Buffered(size, whenFull, xs[..|xs| - 1]), xs[|xs| - 1])
  }

  /** Under the dropping strategies the array stays below `size`. */
  lemma {:induction false} BufferedBelowSize<V, E>(size: Int, whenFull: BufferingStrategy<E>, xs: seq<V>)
    requires size >= 1 && !whenFull.CustomError?
    ensures |Buffered(size, whenFull, xs)| < size
  {
    if xs != [] {
      BufferedBelowSize(size, whenFull, xs[..|xs| - 1]);
    }
  }

  /** `dropNewest` keeps the first `size - 1` inputs. */
  lemma {:induction false} DropNewestKeepsFirst<V, E>(size: Int, xs: seq<V>)
    requires size >= 1
    ensures Buffered<V, E>(size, DropNewest, xs) == xs[..if |xs| < size then |xs| else size - 1]
  {
    if xs != [] {
      var ys := xs[..|xs| - 1];
      DropNewestKeepsFirst<V, E>(size, ys);
      if |xs| < size {
        assert ys + [xs[|xs| - 1]] == xs;
      } else {
        assert ys[..if |ys| < size then |ys| else size - 1] == xs[..size - 1];
      }
    }
  }

  /** `dropOldest` keeps the latest `size - 1` inputs. */
  lemma {:induction false} DropOldestKeepsLatest<V, E>(size: Int, xs: seq<V>)
    requires size >= 1
    ensures Buffered<V, E>(size, DropOldest, xs) == xs[if |xs| < size then 0 else |xs| - (size - 1)..]
  {
    if xs != [] {
      var ys, x := xs[..|xs| - 1], xs[|xs| - 1];
      DropOldestKeepsLatest<V, E>(size, ys);
      if |xs| < size {
        assert ys + [x] == xs;
      } else {
        var k := |ys| - (size - 1);
        assert Buffered<V, E>(size, DropOldest, ys) == ys[k..];
        assert ys[k..] + [x] == xs[k..];
        assert xs[k..][1..] == xs[k + 1..];
      }
    }
  }

  /** The values delivered for inputs `xs`: after each input that does not
      overflow into a `customError`, the whole array once more. */
  function Emitted<V, E>(size: Int, whenFull: BufferingStrategy<E>, xs: seq<V>): seq<V>
  {
    if xs == [] then []
    else
      var ys := xs[..|xs| - 1];
      Emitted(size, whenFull, ys) +
      if Overflows(size, whenFull, Buffered(size, whenFull, ys), xs[|xs| - 1]) then []
      else Buffered(size, whenFull, xs)
  }

  /** One more input stores into the array and, unless it overflows a
      `customError` buffer, publishes the whole array. */
  lemma BufferedSnoc<V, E>(size: Int, whenFull: BufferingStrategy<E>, xs: seq<V>, x: V)
    ensures Buffered(size, whenFull, xs + [x]) == Store(size, whenFull, Buffered(size, whenFull, xs), x)
    ensures Emitted(size, whenFull, xs + [x]) ==
              Emitted(size, whenFull, xs) +
              if Overflows(size, whenFull, Buffered(size, whenFull, xs), x) then []
              else Store(size, whenFull, Buffered(size, whenFull, xs), x)
  {
    assert (xs + [x])[..|xs|] == xs;
  }

  /** `outputs.reduce(.none) { $0 + downstream.receive($1) }`, when the
      i-th delivery of the call returns `reply(i)`. */
  function ReplySum(reply: nat -> Demand, n: nat): Demand
  {
    if n == 0 then Zero else Plus(ReplySum(reply, n - 1), reply(n - 1))
  }

  /** The sum is a valid demand, and unlimited as soon as one delivery
      asks for unlimited. */
  lemma {:induction false} ReplySumProperties(reply: nat -> Demand, n: nat)
    requires forall i :: 0 <= i < n ==> reply(i).Valid()
    ensures ReplySum(reply, n).Valid()
    ensures (exists i :: 0 <= i < n && reply(i).Unlimited?) ==> ReplySum(reply, n).Unlimited?
    ensures n == 0 ==> ReplySum(reply, n) == Zero
  {
    if n > 0 {
      ReplySumProperties(reply, n - 1);
      if reply(n - 1).Unlimited? {
        PlusUnlimited(ReplySum(reply, n - 1), reply(n - 1));
      } else if exists i :: 0 <= i < n - 1 && reply(i).Unlimited? {
        PlusUnlimited(ReplySum(reply, n - 1), reply(n - 1));
      }
    }
  }

  /** The value closure as written for `customError`: the failure goes
      straight to the downstream, so the channel's event stays open and
      the array keeps its `size` elements. Returns the event, the array and
      what the downstream received. */
  function AsWrittenReceive<V, E>(e: SubscriberEvent, size: Int, whenFull: BufferingStrategy<E>, outputs: seq<V>, x: V)
    : (r: (SubscriberEvent, seq<V>, seq<Signal<V, E>>))
    ensures r.0 == e
  {
    if !e.IsOpen() then (e, outputs, [])
    else if Overflows(size, whenFull, outputs, x) then (e, outputs + [x], [Completed(Failure(whenFull.error))])
    else
      var kept := Store(size, whenFull, outputs, x);
      (e, kept, ValueSignals(kept))
  }

  /** With `size` 1 and `customError`, the first input fails the
      downstream, and the second still passes the guard and delivers two
      values after that failure. */
  lemma CustomErrorDeliversAfterFailure<V, E>(s: SubId, a: V, b: V, err: E)
    ensures
      var e := Subscribed(Some(s), Open);
      var r1 := AsWrittenReceive(e, 1, CustomError(err), [], a);
      var r2 := AsWrittenReceive(r1.0, 1, CustomError(err), r1.1, b);
      r1.2 == [Completed(Failure(err))] && r2.2 == [Value(a), Value(b)] && !Disciplined(r1.2 + r2.2)
  {
    var e := Subscribed(Some(s), Open);
    assert [] + [a] == [a];
    var r2 := AsWrittenReceive(e, 1, CustomError(err), [a], b);
    assert r2.1 == [a, b];
    var t := ValueSignals<V, E>([a, b]);
    assert t[0] == Value(a) && t[1] == Value(b);
    var all := [Completed(Failure(err))] + t;
    assert all[0].Completed? && 0 != |all| - 1;
  }

  /** A buffer channel. `outputs` is the captured array and
      `prefetchSubscription` the subscription kept under `keepFull`; the
      subscription a channel passes to its closure is the channel itself. */
  class BufferChannel<V, E> {
    const chan: Channel<V, E>
    const size: Int
    const prefetch: PrefetchStrategy
    const whenFull: BufferingStrategy<E>
    var outputs: seq<V>
    var prefetchSubscription: Option<SubId>
    /** The inputs the value closure has run on. */
    ghost var inputs: seq<V>

    /** `outputs` is the array for the inputs so far and the downstream
        has received the whole array after each of them. */
    ghost predicate Valid()
      reads this, chan
    {
      chan.Valid() &&
      outputs == Buffered(size, whenFull, inputs) &&
      Values(chan.sent) == Emitted(size, whenFull, inputs) &&
      (prefetchSubscription.Some? ==> prefetchSubscription.value == chan.id)
    }

    constructor (id: SubId, size: Int, prefetch: PrefetchStrategy, whenFull: BufferingStrategy<E>)
      ensures Valid() && fresh(chan) && chan.id == id && chan.event == Pending && chan.sent == []
      ensures this.size == size && this.prefetch == prefetch && this.whenFull == whenFull
      ensures outputs == [] && prefetchSubscription == None && inputs == []
    {
      chan := new Channel(id);
      this.size := size;
      this.prefetch := prefetch;
      this.whenFull := whenFull;
      outputs := [];
      prefetchSubscription := None;
      inputs := [];
    }

    /** `keepFull` keeps the channel as the prefetch subscription and tells
        the downstream nothing; `byRequest` hands it to the downstream. */
    method ReceiveSubscription(s: SubId)
      requires Valid()
      modifies this, chan
      ensures Valid()
      ensures chan.event == AcceptSubscription(old(chan.event), s).1
      ensures old(chan.event).Pending? && prefetch == KeepFull ==>
                prefetchSubscription == Some(chan.id) && chan.sent == old(chan.sent)
      ensures old(chan.event).Pending? && prefetch == ByRequest ==>
                prefetchSubscription == old(prefetchSubscription) && chan.sent == old(chan.sent) + [Subscribe(chan.id)]
      ensures !old(chan.event).Pending? ==> prefetchSubscription == old(prefetchSubscription) && chan.sent == old(chan.sent)
    {
      var ok := chan.ShouldReceive(s);
      if !ok {
        return;
      }
      match prefetch {
        case KeepFull =>
          prefetchSubscription := Some(chan.id);
        case ByRequest =>
          ValuesAppend(chan.sent, [Subscribe(chan.id)]);
          ValuesOfOne<V, E>(Subscribe(chan.id));
          chan.Deliver(Subscribe(chan.id));
      }
    }

    /** Delivers every element of `outputs` in order and sums the
        downstream's answers. */
    method DeliverAll(reply: nat -> Demand) returns (d: Demand)
      requires chan.Valid() && !Terminated(chan.sent)
      modifies chan`sent
      ensures chan.Valid()
      ensures chan.sent == old(chan.sent) + ValueSignals(outputs)
      ensures d == ReplySum(reply, |outputs|)
    {
      d := Zero;
      var i := 0;
      while i < |outputs|
        invariant 0 <= i <= |outputs|
        invariant chan.Valid() && (i > 0 ==> !Terminated(chan.sent)) && (i == 0 ==> chan.sent == old(chan.sent))
        invariant chan.sent == old(chan.sent) + ValueSignals(outputs[..i])
        invariant d == ReplySum(reply, i)
      {
        assert outputs[..i + 1][..i] == outputs[..i];
        chan.Deliver(Value(outputs[i]));
        d := Plus(d, reply(i));
        i := i + 1;
      }
      assert outputs[..i] == outputs;
    }

    /** The completion path shared by the upstream's completion and the
        `customError` failure: only an open edge passes it on, and a kept
        prefetch subscription is then cancelled. */
    method Complete(c: Completion<E>)
      requires chan.Valid() && (prefetchSubscription.Some? ==> prefetchSubscription.value == chan.id)
      modifies chan
      ensures chan.Valid()
      ensures chan.sent == if old(chan.event).IsOpen() then old(chan.sent) + [Completed(c)] else old(chan.sent)
      ensures !old(chan.event).IsOpen() ==> chan.event == old(chan.event) && chan.calls == old(chan.calls)
      ensures old(chan.event).IsOpen() && prefetchSubscription.None? ==> chan.event.IsCompleted() && chan.calls == old(chan.calls)
      ensures old(chan.event).IsOpen() && prefetchSubscription.Some? ==>
                chan.event == Cancelled && chan.calls == old(chan.calls) + [CancelCall(old(chan.event).subscription.value)]
    {
      var ok := chan.AnonymousReceiveCompletion(c);
      if ok && prefetchSubscription.Some? {
        chan.Cancel();
      }
    }

    /** Appends the input and, when the array reaches `size`, trims it
        under the dropping strategies. Returns whether `customError` must
        fail the stream. */
    method StoreInput(x: V) returns (overflow: bool)
      modifies this`outputs
      ensures overflow == Overflows(size, whenFull, old(outputs), x)
      ensures outputs == Store(size, whenFull, old(outputs), x)
    {
      outputs := outputs + [x];
      overflow := false;
      if |outputs| == size {
        match whenFull {
          case DropNewest =>
            outputs := outputs[..|outputs| - 1];
          case DropOldest =>
            outputs := outputs[1..];
          case CustomError(_) =>
            overflow := true;
        }
      }
    }

    /** Appends the input and trims the array at `size`; then the whole
        array is delivered and the sum of the answers returned. A
        `customError` overflow fails the stream through the completion
        guard instead and returns `.none`. */
    method ReceiveInput(x: V, reply: nat -> Demand) returns (d: Demand)
      requires Valid()
      modifies this, chan
      ensures Valid()
      ensures !old(chan.event.IsOpen()) ==> d == Zero && outputs == old(outputs) && inputs == old(inputs) && chan.sent == old(chan.sent)
      ensures old(chan.event.IsOpen()) ==> inputs == old(inputs) + [x]
      ensures old(chan.event.IsOpen()) && Overflows(size, whenFull, old(outputs), x) ==>
                d == Zero && outputs == old(outputs) + [x] && !chan.event.IsOpen() &&
                chan.sent == old(chan.sent) + [Completed(Failure(whenFull.error))]
      ensures old(chan.event.IsOpen()) && !Overflows(size, whenFull, old(outputs), x) ==>
                outputs == Store(size, whenFull, old(outputs), x) && d == ReplySum(reply, |outputs|) &&
                chan.sent == old(chan.sent) + ValueSignals(outputs)
    {
      if !chan.IsOpen() {
        return Zero;
      }
      BufferedSnoc(size, whenFull, inputs, x);
      inputs := inputs + [x];
      var overflow := StoreInput(x);
      if overflow {
        ValuesAppendCompletion(chan.sent, Failure(whenFull.error));
        Complete(Failure(whenFull.error));
        return Zero;
      }
      ValuesAppendValueSignals(chan.sent, outputs);
      d := DeliverAll(reply);
    }

    /** The completion is passed on, and a kept prefetch subscription (the
        channel itself) is cancelled, which cancels the upstream. */
    method ReceiveCompletion(c: Completion<E>)
      requires Valid()
      modifies chan
      ensures Valid()
      ensures chan.sent == if old(chan.event).IsOpen() then old(chan.sent) + [Completed(c)] else old(chan.sent)
      ensures old(chan.event).IsOpen() && prefetchSubscription.Some? ==>
                chan.event == Cancelled && chan.calls == old(chan.calls) + [CancelCall(old(chan.event).subscription.value)]
    {
      ValuesAppendCompletion(chan.sent, c);
      Complete(c);
    }
  }
}
