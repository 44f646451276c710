/** `LastWhereBase`: remembers the latest input that matches the predicate
    and publishes it when the upstream completes. `last()` uses a predicate
    that is always true. */
module Last {
  import opened Wrappers
  import opened Demands
  import opened Completions
  import opened Signals
  import opened SubscriptionState
  import opened Channels

  /** The remembered match after inputs `xs`, or the first error thrown. */
  function LastSearch<V, E>(matches: V -> Try<bool, E>, xs: seq<V>): Try<Option<V>, E>
  {
    if xs == [] then Returned(None)
    else match LastSearch(matches, xs[..|xs| - 1])
      case Threw(e) => Threw(e)
      case Returned(last) =>
        match matches(xs[|xs| - 1])
        case Threw(e) => Threw(e)
        case Returned(b) => Returned(if b then Some(xs[|xs| - 1]) else last)
  }

  lemma LastSearchSnoc<V, E>(matches: V -> Try<bool, E>, xs: seq<V>, x: V)
    ensures LastSearch(matches, xs + [x]) ==
              match LastSearch(matches, xs)
              case Threw(e) => Threw(e)
              case Returned(last) =>
                match matches(x)
                case Threw(e) => Threw(e)
                case Returned(b) => Returned(if b then Some(x) else last)
  {
    assert (xs + [x])[..|xs|] == xs;
  }

  /** The result is the latest matching input, and no input means that
      none matched. */
  lemma {:induction false} LastSearchIsLast<V, E>(matches: V -> Try<bool, E>, xs: seq<V>)
    ensures LastSearch(matches, xs).Returned? && LastSearch(matches, xs).value.Some? ==>
              exists i :: 0 <= i < |xs| && xs[i] == LastSearch(matches, xs).value.value &&
                          matches(xs[i]) == Returned(true) &&
                          forall j :: i < j < |xs| ==> matches(xs[j]) == Returned(false)
    ensures LastSearch(matches, xs) == Returned(None) <==> forall j :: 0 <= j < |xs| ==> matches(xs[j]) == Returned(false)
  {
    if xs != [] {
      var ys, y := xs[..|xs| - 1], xs[|xs| - 1];
      LastSearchIsLast(matches, ys);
      assert forall j :: 0 <= j < |ys| ==> xs[j] == ys[j];
      var r := LastSearch(matches, xs);
      if matches(y) == Returned(false) && r.Returned? && r.value.Some? {
        var i :| 0 <= i < |ys| && ys[i] == r.value.value && matches(ys[i]) == Returned(true) &&
                 forall j :: i < j < |ys| ==> matches(ys[j]) == Returned(false);
        assert xs[i] == r.value.value;
      }
      if matches(y) == Returned(true) && r.Returned? {
        assert xs[|xs| - 1] == r.value.value;
      }
    }
  }

  /** `last()`: with an always-true predicate the last input is
      published. */
  lemma {:induction false} LastOfAll<V, E>(matches: V -> Try<bool, E>, xs: seq<V>)
    requires forall x :: matches(x) == Returned(true)
    ensures xs != [] ==> LastSearch(matches, xs) == Returned(Some(xs[|xs| - 1]))
    ensures xs == [] ==> LastSearch(matches, xs) == Returned(None)
  {
    if xs != [] {
      LastOfAll(matches, xs[..|xs| - 1]);
    }
  }

  /** A `last(where:)`/`tryLast(where:)` channel. */
  class LastChannel<V, E> {
    const chan: Channel<V, E>
    const matches: V -> Try<bool, E>
    var last: Option<V>
    /** The inputs `filterInput` has run on. */
    ghost var inputs: seq<V>

    ghost predicate Valid()
      reads this, chan
    {
      chan.Valid() &&
      (chan.hasThrown ==> chan.event.IsCompleted()) &&
      (chan.hasThrown <==> LastSearch(matches, inputs).Threw?) &&
      (!chan.event.IsCompleted() ==> LastSearch(matches, inputs) == Returned(last) && Values(chan.sent) == [])
    }

    constructor (id: SubId, matches: V -> Try<bool, E>)
      ensures Valid() && fresh(chan) && chan.id == id && chan.event == Pending && chan.sent == []
      ensures this.matches == matches && last == None && inputs == []
    {
      chan := new Channel(id);
      this.matches := matches;
      last := None;
      inputs := [];
    }

    method ReceiveSubscription(s: SubId)
      requires Valid()
      modifies chan
      ensures Valid()
      ensures chan.event == AcceptSubscription(old(chan.event), s).1
      ensures chan.sent == if old(chan.event).Pending? then old(chan.sent) + [Subscribe(chan.id)] else old(chan.sent)
    {
      chan.TransformReceiveSubscription(s);
      ValuesAppend(old(chan.sent), [Subscribe(chan.id)]);
    }

    /** A match is remembered; nothing is published per input. */
    method ReceiveInput(x: V, reply: Demand) returns (d: Demand)
      requires Valid()
      modifies this, chan
      ensures Valid() && d == Zero
      ensures !old(chan.event.IsOpen()) ==> last == old(last) && inputs == old(inputs) && chan.sent == old(chan.sent)
      ensures old(chan.event.IsOpen()) ==> inputs == old(inputs) + [x]
      ensures old(chan.event.IsOpen()) ==>
                match matches(x)
                case Returned(b) => last == (if b then Some(x) else old(last)) && chan.sent == old(chan.sent)
                case Threw(e) => chan.hasThrown && chan.sent == old(chan.sent) + [Completed(Failure(e))]
    {
      if !chan.IsOpen() {
        return Zero;
      }
      LastSearchSnoc(matches, inputs, x);
      var outcome: Outcome<V, E>;
      match matches(x) {
        case Returned(b) =>
          if b {
            last := Some(x);
          }
          outcome := FilterOutcome(x, Returned(false));
        case Threw(e) =>
          outcome := FilterOutcome(x, Threw(e));
      }
      inputs := inputs + [x];
      d := chan.Forward(outcome, reply);
    }

    /** `willComplete` publishes the remembered match, if any, and clears
        it. */
    method ReceiveCompletion(c: Completion<E>)
      requires Valid()
      modifies this, chan
      ensures Valid()
      ensures !old(chan.event.IsOpen()) ==> chan.sent == old(chan.sent) && last == old(last)
      ensures old(chan.event.IsOpen()) && !chan.hasThrown ==>
                last == None &&
                chan.sent == old(chan.sent) +
                  (match LastSearch(matches, inputs).value
                   case Some(v) => [Value(v)]
                   case None => []) +
                  [Completed(c)]
    {
      var willComplete := chan.TransformReceiveCompletion(c, last);
      if willComplete {
        last := None;
      }
    }
  }
}
