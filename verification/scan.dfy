/** `ScanBase`: like reduce, but publishes every intermediate accumulator. */
module Scan {
  import opened Wrappers
  import opened Demands
  import opened Completions
  import opened Signals
  import opened SubscriptionState
  import opened Channels
  import opened Reduce

  /** The accumulators published for inputs `xs`: one per input, until the
      closure throws. */
  function RunningFolds<A, I, E>(next: (A, I) -> Try<A, E>, initial: A, xs: seq<I>): seq<A>
  {
    if xs == [] then []
    else RunningFolds(next, initial, xs[..|xs| - 1]) +
         match Fold(next, initial, xs)
         case Returned(a) => [a]
         case Threw(_) => []
  }

  lemma RunningFoldsSnoc<A, I, E>(next: (A, I) -> Try<A, E>, initial: A, xs: seq<I>, x: I)
    ensures RunningFolds(next, initial, xs + [x]) ==
              RunningFolds(next, initial, xs) +
              match Fold(next, initial, xs + [x])
              case Returned(a) => [a]
              case Threw(_) => []
  {
    assert (xs + [x])[..|xs|] == xs;
  }

  /** While the closure has not thrown, the value published for the n-th
      input is the fold of the first n inputs: the outputs are the running
      folds. */
  lemma {:induction false} RunningFoldsAt<A, I, E>(next: (A, I) -> Try<A, E>, initial: A, xs: seq<I>)
    requires Fold(next, initial, xs).Returned?
    ensures |RunningFolds(next, initial, xs)| == |xs|
    ensures forall n :: 1 <= n <= |xs| ==>
              Fold(next, initial, xs[..n]).Returned? &&
              RunningFolds(next, initial, xs)[n - 1] == Fold(next, initial, xs[..n]).value
  {
    if xs != [] {
      var ys := xs[..|xs| - 1];
      assert xs == ys + [xs[|xs| - 1]];
      assert Fold(next, initial, ys).Returned?;
      RunningFoldsAt(next, initial, ys);
      forall n | 1 <= n <= |xs|
        ensures Fold(next, initial, xs[..n]).Returned?
        ensures RunningFolds(next, initial, xs)[n - 1] == Fold(next, initial, xs[..n]).value
      {
        if n < |xs| {
          assert xs[..n] == ys[..n];
        } else {
          assert xs[..n] == xs;
        }
      }
    }
  }

  /** Integer addition as a closure that never throws. */
  function Add(a: int, x: int): Try<int, string> {
    Returned(a + x)
  }

  /** One more input to a sum that has published `rs` with total `a`. */
  lemma SumStep(xs: seq<int>, rs: seq<int>, a: int, x: int)
    requires Fold(Add, 0, xs) == Returned(a) && RunningFolds(Add, 0, xs) == rs
    ensures Fold(Add, 0, xs + [x]) == Returned(a + x)
    ensures RunningFolds(Add, 0, xs + [x]) == rs + [a + x]
  {
    FoldSnoc(Add, 0, xs, x);
    RunningFoldsSnoc(Add, 0, xs, x);
  }

  /** The inputs 0, 1, ..., n - 1. */
  function Range(n: nat): (r: seq<int>)
    ensures |r| == n && forall i :: 0 <= i < n ==> r[i] == i
  {
    if n == 0 then [] else Range(n - 1) + [n - 1]
  }

  /** With `+` starting at 0, the inputs 0...n-1 publish the triangular
      numbers: 0 1 3 6 10 15 for 0...5. */
  lemma {:induction false} RangeSums(n: nat)
    ensures Fold(Add, 0, Range(n)) == Returned(n * (n - 1) / 2)
    ensures |RunningFolds(Add, 0, Range(n))| == n
    ensures forall k :: 0 <= k < n ==> RunningFolds(Add, 0, Range(n))[k] == (k + 1) * k / 2
  {
    if n > 0 {
      var m := n - 1;
      RangeSums(m);
      SumStep(Range(m), RunningFolds(Add, 0, Range(m)), m * (m - 1) / 2, m);
      TriangleStep(m);
    }
  }

  lemma TriangleStep(m: nat)
    ensures m * (m - 1) / 2 + m == (m + 1) * m / 2
  {
    assert m * (m - 1) + 2 * m == (m + 1) * m;
  }

  /** A `scan`/`tryScan` channel. */
  class ScanChannel<I, O, E> {
    const chan: Channel<O, E>
    const initial: O
    const next: (O, I) -> Try<O, E>
    var result: Option<O>
    /** The inputs `transformInput` has run on. */
    ghost var inputs: seq<I>

    /** Until completion, `result` holds the fold of the inputs (so the
        force-unwrap in `transformInput` cannot fail), and the values
        published so far are the running folds. */
    ghost predicate Valid()
      reads this, chan
    {
      chan.Valid() &&
      (chan.hasThrown ==> chan.event.IsCompleted()) &&
      (chan.hasThrown <==> Fold(next, initial, inputs).Threw?) &&
      (!chan.event.IsCompleted() ==> result.Some? && Fold(next, initial, inputs) == Returned(result.value)) &&
      Values(chan.sent) == RunningFolds(next, initial, inputs)
    }

    constructor (id: SubId, initial: O, next: (O, I) -> Try<O, E>)
      ensures Valid() && fresh(chan) && chan.id == id && chan.event == Pending && chan.sent == []
      ensures this.initial == initial && this.next == next && result == Some(initial) && inputs == []
    {
      chan := new Channel(id);
      this.initial := initial;
      this.next := next;
      result := Some(initial);
      inputs := [];
    }

    method ReceiveSubscription(s: SubId)
      requires Valid()
      modifies chan
      ensures Valid()
      ensures chan.event == AcceptSubscription(old(chan.event), s).1
      ensures chan.sent == if old(chan.event).Pending? then old(chan.sent) + [Subscribe(chan.id)] else old(chan.sent)
    {
      chan.TransformReceiveSubscription(s);
      ValuesAppend(old(chan.sent), [Subscribe(chan.id)]);
    }

    /** Each input publishes the new accumulator and returns the
        downstream's answer; a throw completes the downstream instead. */
    method ReceiveInput(x: I, reply: Demand) returns (d: Demand)
      requires Valid()
      modifies this, chan
      ensures Valid()
      ensures !old(chan.event.IsOpen()) ==> d == Zero && result == old(result) && inputs == old(inputs) && chan.sent == old(chan.sent)
      ensures old(chan.event.IsOpen()) ==> old(result).Some? && inputs == old(inputs) + [x]
      ensures old(chan.event.IsOpen()) && next(old(result).value, x).Returned? ==>
                d == reply && result == Some(next(old(result).value, x).value) &&
                chan.sent == old(chan.sent) + [Value(next(old(result).value, x).value)]
      ensures old(chan.event.IsOpen()) && next(old(result).value, x).Threw? ==>
                d == Zero && chan.hasThrown && chan.sent == old(chan.sent) + [Completed(Failure(next(old(result).value, x).error))]
    {
      if !chan.IsOpen() {
        return Zero;
      }
      FoldSnoc(next, initial, inputs, x);
      RunningFoldsSnoc(next, initial, inputs, x);
      var outcome: Outcome<O, E>;
      match next(result.value, x) {
        case Returned(a) =>
          result := Some(a);
          outcome := Emit(a);
          ValuesAppendValue(chan.sent, a);
        case Threw(e) =>
          outcome := Throw(e);
          ValuesAppendCompletion(chan.sent, Failure(e));
      }
      inputs := inputs + [x];
      d := chan.Forward(outcome, reply);
    }

    /** `willComplete` publishes nothing and clears the accumulator. */
    method ReceiveCompletion(c: Completion<E>)
      requires Valid()
      modifies this, chan
      ensures Valid()
      ensures !old(chan.event.IsOpen()) ==> chan.sent == old(chan.sent) && result == old(result)
      ensures old(chan.event.IsOpen()) ==> chan.sent == old(chan.sent) + [Completed(c)] && result == None
    {
      ValuesAppendCompletion(chan.sent, c);
      var willComplete := chan.TransformReceiveCompletion(c, None);
      assert old(chan.sent) + [] == old(chan.sent);
      if willComplete {
        result := None;
      }
    }
  }
}
