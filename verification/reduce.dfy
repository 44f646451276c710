/** `ReduceBase`: folds every input into an accumulator and publishes the
    final accumulator when the upstream completes. */
module Reduce {
  import opened Wrappers
  import opened Demands
  import opened Completions
  import opened Signals
  import opened SubscriptionState
  import opened Channels

  /** The accumulator after feeding `xs`, one by one, to `next` starting
      from `initial`, or the first error `next` threw. */
  function Fold<A, I, E>(next: (A, I) -> Try<A, E>, initial: A, xs: seq<I>): Try<A, E>
  {
    if xs == [] then Returned(initial)
    else match Fold(next, initial, xs[..|xs| - 1])
      case Threw(e) => Threw(e)
      case Returned(a) => next(a, xs[|xs| - 1])
  }

  /** One more input advances the fold by one call of `next`. */
  lemma FoldSnoc<A, I, E>(next: (A, I) -> Try<A, E>, initial: A, xs: seq<I>, x: I)
    ensures Fold(next, initial, xs + [x]) ==
              match Fold(next, initial, xs)
              case Threw(e) => Threw(e)
              case Returned(a) => next(a, x)
  {
    assert (xs + [x])[..|xs|] == xs;
  }

  /** Once `next` has thrown, later inputs change nothing: the fold keeps
      the first error. */
  lemma {:induction false} FoldThrowSticks<A, I, E>(next: (A, I) -> Try<A, E>, initial: A, xs: seq<I>, ys: seq<I>)
    requires Fold(next, initial, xs).Threw?
    ensures Fold(next, initial, xs + ys) == Fold(next, initial, xs)
  {
    if ys != [] {
      var zs := ys[..|ys| - 1];
      assert xs + ys == (xs + zs) + [ys[|ys| - 1]];
      FoldThrowSticks(next, initial, xs, zs);
      FoldSnoc(next, initial, xs + zs, ys[|ys| - 1]);
    } else {
      assert xs + ys == xs;
    }
  }

  /** The textbook left fold, consuming the sequence from the front. */
  function FoldLeft<A, I>(f: (A, I) -> A, a: A, xs: seq<I>): A
  {
    if xs == [] then a else FoldLeft(f, f(a, xs[0]), xs[1..])
  }

  lemma {:induction false} FoldLeftSnoc<A, I>(f: (A, I) -> A, a: A, xs: seq<I>, x: I)
    ensures FoldLeft(f, a, xs + [x]) == f(FoldLeft(f, a, xs), x)
  {
    if xs != [] {
      assert (xs + [x])[1..] == xs[1..] + [x];
      FoldLeftSnoc(f, f(a, xs[0]), xs[1..], x);
    }
  }

  /** With a closure that never throws, the accumulator is the ordinary left
      fold of the inputs. */
  lemma {:induction false} FoldIsFoldLeft<A, I, E>(next: (A, I) -> Try<A, E>, f: (A, I) -> A, initial: A, xs: seq<I>)
    requires forall a, x :: next(a, x) == Returned(f(a, x))
    ensures Fold(next, initial, xs) == Returned(FoldLeft(f, initial, xs))
  {
    if xs != [] {
      var ys, y := xs[..|xs| - 1], xs[|xs| - 1];
      assert xs == ys + [y];
      FoldIsFoldLeft(next, f, initial, ys);
      FoldSnoc(next, initial, ys, y);
      FoldLeftSnoc(f, initial, ys, y);
    }
  }

  /** A `reduce`/`tryReduce` channel. */
  class ReduceChannel<I, O, E> {
    const chan: Channel<O, E>
    const initial: O
    const next: (O, I) -> Try<O, E>
    var result: O
    /** The inputs `transformInput` has run on. */
    ghost var inputs: seq<I>

    /** `result` is the fold of the inputs so far unless the closure threw,
        and nothing is published before completion. */
    ghost predicate Valid()
      reads this, chan
    {
      chan.Valid() &&
      (chan.hasThrown <==> Fold(next, initial, inputs).Threw?) &&
      (!chan.hasThrown ==> Fold(next, initial, inputs) == Returned(result)) &&
      (!chan.event.IsCompleted() ==> Values(chan.sent) == [])
    }

    constructor (id: SubId, initial: O, next: (O, I) -> Try<O, E>)
      ensures Valid() && fresh(chan) && chan.id == id && chan.event == Pending && chan.sent == []
      ensures this.initial == initial && this.next == next && result == initial && inputs == []
    {
      chan := new Channel(id);
      this.initial := initial;
      this.next := next;
      result := initial;
      inputs := [];
    }

    method ReceiveSubscription(s: SubId)
      requires Valid()
      modifies chan
      ensures Valid()
      ensures chan.event == AcceptSubscription(old(chan.event), s).1
      ensures chan.sent == if old(chan.event).Pending? then old(chan.sent) + [Subscribe(chan.id)] else old(chan.sent)
    {
      chan.TransformReceiveSubscription(s);
      ValuesAppend(old(chan.sent), [Subscribe(chan.id)]);
    }

    /** `receive(_:)` with `transformInput`: the accumulator advances and
        nothing is sent; a throw completes the downstream with the error. */
    method ReceiveInput(x: I, reply: Demand) returns (d: Demand)
      requires Valid()
      modifies this, chan
      ensures Valid() && d == Zero
      ensures !old(chan.event.IsOpen()) ==> result == old(result) && inputs == old(inputs) && chan.sent == old(chan.sent)
      ensures old(chan.event.IsOpen()) ==> inputs == old(inputs) + [x]
      ensures old(chan.event.IsOpen()) && next(old(result), x).Returned? ==>
                result == next(old(result), x).value && chan.sent == old(chan.sent) && chan.event == old(chan.event)
      ensures old(chan.event.IsOpen()) && next(old(result), x).Threw? ==>
                chan.hasThrown && chan.sent == old(chan.sent) + [Completed(Failure(next(old(result), x).error))]
    {
      if !chan.IsOpen() {
        return Zero;
      }
      FoldSnoc(next, initial, inputs, x);
      var outcome: Outcome<O, E>;
      match next(result, x) {
        case Returned(a) =>
          result := a;
          outcome := Drop;
        case Threw(e) =>
          outcome := Throw(e);
          ValuesAppendCompletion(chan.sent, Failure(e));
      }
      inputs := inputs + [x];
      d := chan.Forward(outcome, reply);
    }

    /** `receive(completion:)` with `willComplete`: unless the closure threw,
        the final accumulator is published just before the completion. */
    method ReceiveCompletion(c: Completion<E>)
      requires Valid()
      modifies chan
      ensures Valid()
      ensures !old(chan.event.IsOpen()) ==> chan.sent == old(chan.sent)
      ensures old(chan.event.IsOpen()) && !chan.hasThrown ==>
                chan.sent == old(chan.sent) + [Value(Fold(next, initial, inputs).value), Completed(c)]
      ensures old(chan.event.IsOpen()) && chan.hasThrown ==> chan.sent == old(chan.sent) + [Completed(c)]
    {
      var _ := chan.TransformReceiveCompletion(c, Some(result));
    }
  }
}
