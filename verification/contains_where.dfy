/** `ContainsWhereBase`: publishes `true` once, at the first input that
    matches the predicate. */
module ContainsWhere {
  import opened Wrappers
  import opened Demands
  import opened Completions
  import opened Signals
  import opened SubscriptionState
  import opened Channels
  import opened First

  /** `contains` is set exactly when the first-match search over the inputs
      found a match, which is when some input matches and every earlier
      one was rejected. */
  lemma ContainsExactly<V, E>(matches: V -> Try<bool, E>, xs: seq<V>)
    requires forall x :: matches(x).Returned?
    ensures FirstSearch(matches, xs).Returned?
    ensures FirstSearch(matches, xs).value.Some? <==> exists i :: 0 <= i < |xs| && matches(xs[i]) == Returned(true)
  {
    FirstSearchIsFirst(matches, xs);
    if FirstSearch(matches, xs).Threw? {
      NeverThrows(matches, xs);
    }
  }

  lemma {:induction false} NeverThrows<V, E>(matches: V -> Try<bool, E>, xs: seq<V>)
    requires forall x :: matches(x).Returned?
    ensures FirstSearch(matches, xs).Returned?
  {
    if xs != [] {
      NeverThrows(matches, xs[1..]);
    }
  }

  /** A `contains(where:)`/`tryContains(where:)` channel. */
  class ContainsWhereChannel<V, E> {
    const chan: Channel<bool, E>
    const matches: V -> Try<bool, E>
    var contains: bool
    /** The inputs `transformInput` has run on. */
    ghost var inputs: seq<V>

    /** `contains` records whether the first-match search succeeded, the
        downstream has received `true` exactly then, and never `false`. */
    ghost predicate Valid()
      reads this, chan
    {
      chan.Valid() &&
      (chan.hasThrown ==> chan.event.IsCompleted()) &&
      (chan.hasThrown <==> FirstSearch(matches, inputs).Threw?) &&
      (FirstSearch(matches, inputs).Returned? ==> (contains <==> FirstSearch(matches, inputs).value.Some?)) &&
      (chan.hasThrown ==> !contains) &&
      Values(chan.sent) == (if contains then [true] else [])
    }

    constructor (id: SubId, matches: V -> Try<bool, E>)
      ensures Valid() && fresh(chan) && chan.id == id && chan.event == Pending && chan.sent == []
      ensures this.matches == matches && !contains && inputs == []
    {
      chan := new Channel(id);
      this.matches := matches;
      contains := false;
      inputs := [];
    }

    method ReceiveSubscription(s: SubId)
      requires Valid()
      modifies chan
      ensures Valid()
      ensures chan.event == AcceptSubscription(old(chan.event), s).1
      ensures chan.sent == if old(chan.event).Pending? then old(chan.sent) + [Subscribe(chan.id)] else old(chan.sent)
    {
      chan.TransformReceiveSubscription(s);
      ValuesAppend(old(chan.sent), [Subscribe(chan.id)]);
    }

    /** Before a match, the predicate runs: a match publishes `true` and
        returns the downstream's answer, a throw fails the downstream.
        After a match, inputs are dropped without running the predicate. */
    method ReceiveInput(x: V, reply: Demand) returns (d: Demand)
      requires Valid()
      modifies this, chan
      ensures Valid()
      ensures !old(chan.event.IsOpen()) ==> d == Zero && contains == old(contains) && inputs == old(inputs) && chan.sent == old(chan.sent)
      ensures old(chan.event.IsOpen()) ==> inputs == old(inputs) + [x]
      ensures old(chan.event.IsOpen()) && old(contains) ==> d == Zero && contains && chan.sent == old(chan.sent)
      ensures old(chan.event.IsOpen()) && !old(contains) ==>
                match matches(x)
                case Returned(b) =>
                  contains == b && d == (if b then reply else Zero) &&
                  chan.sent == old(chan.sent) + (if b then [Value(true)] else [])
                case Threw(e) =>
                  !contains && d == Zero && chan.hasThrown && chan.sent == old(chan.sent) + [Completed(Failure(e))]
    {
      if !chan.IsOpen() {
        return Zero;
      }
      FirstSearchSnoc(matches, inputs, x);
      var outcome: Outcome<bool, E> := Drop;
      if !contains {
        match matches(x) {
          case Returned(b) =>
            if b {
              contains := true;
              outcome := Emit(true);
              ValuesAppendValue(chan.sent, true);
            }
          case Threw(e) =>
            outcome := Throw(e);
            ValuesAppendCompletion(chan.sent, Failure(e));
        }
      }
      inputs := inputs + [x];
      d := chan.Forward(outcome, reply);
    }

    /** The completion is forwarded as is; no `false` is published. */
    method ReceiveCompletion(c: Completion<E>)
      requires Valid()
      modifies chan
      ensures Valid()
      ensures !old(chan.event.IsOpen()) ==> chan.sent == old(chan.sent)
      ensures old(chan.event.IsOpen()) ==> chan.sent == old(chan.sent) + [Completed(c)]
    {
      ValuesAppendCompletion(chan.sent, c);
      var _ := chan.TransformReceiveCompletion(c, None);
      assert old(chan.sent) + [] == old(chan.sent);
    }
  }
}
