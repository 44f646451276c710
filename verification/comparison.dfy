/** `ComparisonBase`: remembers the greatest input under
    `areInIncreasingOrder` and publishes it when the upstream completes.
    `min(by:)` is the same channel with the ordering's arguments swapped. */
module Comparison {
  import opened Wrappers
  import opened Demands
  import opened Completions
  import opened Signals
  import opened SubscriptionState
  import opened Channels

  /** The ordering `min(by:)` hands to the channel: the caller's ordering
      with its arguments swapped. (`max(by:)` hands it over unchanged.) */
  function MinOrder<V(!new), E>(areInIncreasingOrder: (V, V) -> Try<bool, E>): (order: (V, V) -> Try<bool, E>)
    ensures forall a, b :: order(a, b) == areInIncreasingOrder(b, a)
  {
    (a, b) => areInIncreasingOrder(b, a)
  }

  /** One input: the first becomes the maximum; later ones replace it when
      `areInIncreasingOrder(maximum, input)` holds. */
  function MaxStep<V, E>(order: (V, V) -> Try<bool, E>, maximum: Option<V>, x: V): Try<Option<V>, E>
  {
    match maximum
    case None => Returned(Some(x))
    case Some(m) =>
      match order(m, x)
      case Threw(e) => Threw(e)
      case Returned(increasing) => Returned(Some(if increasing then x else m))
  }

  /** The maximum after inputs `xs`, or the first error the ordering threw. */
  function Maximum<V, E>(order: (V, V) -> Try<bool, E>, xs: seq<V>): Try<Option<V>, E>
  {
    if xs == [] then Returned(None)
    else match Maximum(order, xs[..|xs| - 1])
      case Threw(e) => Threw(e)
      case Returned(m) => MaxStep(order, m, xs[|xs| - 1])
  }

  lemma MaximumSnoc<V, E>(order: (V, V) -> Try<bool, E>, xs: seq<V>, x: V)
    ensures Maximum(order, xs + [x]) ==
              match Maximum(order, xs)
              case Threw(e) => Threw(e)
              case Returned(m) => MaxStep(order, m, x)
  {
    assert (xs + [x])[..|xs|] == xs;
  }

  /** The ordering never throws. */
  ghost predicate NeverThrows<V(!new), E>(order: (V, V) -> Try<bool, E>) {
    forall a, b :: order(a, b).Returned?
  }

  /** The ordering is a strict partial order: irreflexive and transitive. */
  ghost predicate StrictOrder<V(!new), E>(order: (V, V) -> Try<bool, E>) {
    (forall a :: order(a, a) == Returned(false)) &&
    (forall a, b, c :: order(a, b) == Returned(true) && order(b, c) == Returned(true) ==> order(a, c) == Returned(true))
  }

  /** Under a strict partial order, the channel's result is one of the
      inputs and no input is greater than it; it is absent exactly for an
      empty stream. */
  lemma {:induction false} MaximumIsGreatest<V(!new), E>(order: (V, V) -> Try<bool, E>, xs: seq<V>)
    requires NeverThrows(order) && StrictOrder(order)
    ensures Maximum(order, xs).Returned?
    ensures Maximum(order, xs).value.None? <==> xs == []
    ensures Maximum(order, xs).value.Some? ==>
              Maximum(order, xs).value.value in xs &&
              forall x :: x in xs ==> order(Maximum(order, xs).value.value, x) == Returned(false)
  {
    if xs != [] {
      var ys, y := xs[..|xs| - 1], xs[|xs| - 1];
      assert xs == ys + [y];
      MaximumIsGreatest(order, ys);
      MaximumSnoc(order, ys, y);
      var m := Maximum(order, ys).value;
      if m.Some? {
        var mv := m.value;
        if order(mv, y) == Returned(true) {
          forall x | x in xs ensures order(y, x) == Returned(false) {
            var b := order(y, x).value;
            assert order(y, x) == Returned(b);
            if x != y {
              assert x in ys && order(mv, x) == Returned(false);
              if b {
                assert order(mv, x) == Returned(true);
              }
            }
          }
        }
      }
    }
  }

  /** For `min(by:)`: no input is smaller than the published value. */
  lemma MinimumIsLeast<V(!new), E>(order: (V, V) -> Try<bool, E>, xs: seq<V>)
    requires NeverThrows(order) && StrictOrder(order)
    ensures Maximum(MinOrder(order), xs).Returned?
    ensures Maximum(MinOrder(order), xs).value.Some? ==>
              Maximum(MinOrder(order), xs).value.value in xs &&
              forall x :: x in xs ==> order(x, Maximum(MinOrder(order), xs).value.value) == Returned(false)
  {
    var flipped := MinOrder(order);
    assert NeverThrows(flipped);
    assert StrictOrder(flipped) by {
      forall a, b, c | flipped(a, b) == Returned(true) && flipped(b, c) == Returned(true)
        ensures flipped(a, c) == Returned(true)
      {
        assert order(c, b) == Returned(true) && order(b, a) == Returned(true);
      }
    }
    MaximumIsGreatest(flipped, xs);
  }

  /** A `max(by:)`/`min(by:)` channel (and their throwing forms). */
  class ComparisonChannel<V, E> {
    const chan: Channel<V, E>
    const areInIncreasingOrder: (V, V) -> Try<bool, E>
    var maximum: Option<V>
    /** The inputs `transformInput` has run on. */
    ghost var inputs: seq<V>

    ghost predicate Valid()
      reads this, chan
    {
      chan.Valid() &&
      (chan.hasThrown ==> chan.event.IsCompleted()) &&
      (chan.hasThrown <==> Maximum(areInIncreasingOrder, inputs).Threw?) &&
      (!chan.event.IsCompleted() ==> Maximum(areInIncreasingOrder, inputs) == Returned(maximum) && Values(chan.sent) == [])
    }

    constructor (id: SubId, areInIncreasingOrder: (V, V) -> Try<bool, E>)
      ensures Valid() && fresh(chan) && chan.id == id && chan.event == Pending && chan.sent == []
      ensures this.areInIncreasingOrder == areInIncreasingOrder && maximum == None && inputs == []
    {
      chan := new Channel(id);
      this.areInIncreasingOrder := areInIncreasingOrder;
      maximum := None;
      inputs := [];
    }

    method ReceiveSubscription(s: SubId)
      requires Valid()
      modifies chan
      ensures Valid()
      ensures chan.event == AcceptSubscription(old(chan.event), s).1
      ensures chan.sent == if old(chan.event).Pending? then old(chan.sent) + [Subscribe(chan.id)] else old(chan.sent)
    {
      chan.TransformReceiveSubscription(s);
      ValuesAppend(old(chan.sent), [Subscribe(chan.id)]);
    }

    /** Each input updates the maximum and publishes nothing. */
    method ReceiveInput(x: V, reply: Demand) returns (d: Demand)
      requires Valid()
      modifies this, chan
      ensures Valid() && d == Zero
      ensures !old(chan.event.IsOpen()) ==> maximum == old(maximum) && inputs == old(inputs) && chan.sent == old(chan.sent)
      ensures old(chan.event.IsOpen()) ==> inputs == old(inputs) + [x]
      ensures old(chan.event.IsOpen()) && MaxStep(areInIncreasingOrder, old(maximum), x).Returned? ==>
                maximum == MaxStep(areInIncreasingOrder, old(maximum), x).value && chan.sent == old(chan.sent)
      ensures old(chan.event.IsOpen()) && MaxStep(areInIncreasingOrder, old(maximum), x).Threw? ==>
                chan.hasThrown &&
                chan.sent == old(chan.sent) + [Completed(Failure(MaxStep(areInIncreasingOrder, old(maximum), x).error))]
    {
      if !chan.IsOpen() {
        return Zero;
      }
      MaximumSnoc(areInIncreasingOrder, inputs, x);
      var outcome: Outcome<V, E> := Drop;
      match maximum {
        case None =>
          maximum := Some(x);
        case Some(m) =>
          match areInIncreasingOrder(m, x) {
            case Returned(increasing) =>
              if increasing {
                maximum := Some(x);
              }
            case Threw(e) =>
              outcome := Throw(e);
          }
      }
      inputs := inputs + [x];
      d := chan.Forward(outcome, reply);
    }

    /** `willComplete` publishes the maximum, if any, and clears it. */
    method ReceiveCompletion(c: Completion<E>)
      requires Valid()
      modifies this, chan
      ensures Valid()
      ensures !old(chan.event.IsOpen()) ==> chan.sent == old(chan.sent) && maximum == old(maximum)
      ensures old(chan.event.IsOpen()) && !chan.hasThrown ==>
                maximum == None &&
                chan.sent == old(chan.sent) +
                  (match Maximum(areInIncreasingOrder, inputs).value
                   case Some(m) => [Value(m)]
                   case None => []) +
                  [Completed(c)]
    {
      var willComplete := chan.TransformReceiveCompletion(c, maximum);
      if willComplete {
        maximum := None;
      }
    }
  }
}
