/** `FirstWhereBase`: publishes the first input that matches the predicate
    and finishes right away. `first()` uses a predicate that is always
    true. */
module First {
  import opened Wrappers
  import opened Demands
  import opened Completions
  import opened Signals
  import opened SubscriptionState
  import opened Channels

  /** Scans `xs` from the front: the first input the predicate accepts, no
      input if it accepts none, or the first error it throws. Inputs after
      the first match are never tested. */
  function FirstSearch<V, E>(matches: V -> Try<bool, E>, xs: seq<V>): Try<Option<V>, E>
  {
    if xs == [] then Returned(None)
    else match matches(xs[0])
      case Threw(e) => Threw(e)
      case Returned(b) => if b then Returned(Some(xs[0])) else FirstSearch(matches, xs[1..])
  }

  /** Feeding one more input only matters while nothing has matched yet. */
  lemma {:induction false} FirstSearchSnoc<V, E>(matches: V -> Try<bool, E>, xs: seq<V>, x: V)
    ensures FirstSearch(matches, xs + [x]) ==
              if FirstSearch(matches, xs) == Returned(None) then
                match matches(x)
                case Threw(e) => Threw(e)
                case Returned(b) => Returned(if b then Some(x) else None)
              else FirstSearch(matches, xs)
  {
    if xs != [] {
      assert (xs + [x])[0] == xs[0] && (xs + [x])[1..] == xs[1..] + [x];
      FirstSearchSnoc(matches, xs[1..], x);
    }
  }

  /** The result is the earliest matching input, and no input means that
      none matched. */
  lemma {:induction false} FirstSearchIsFirst<V, E>(matches: V -> Try<bool, E>, xs: seq<V>)
    ensures FirstSearch(matches, xs).Returned? && FirstSearch(matches, xs).value.Some? ==>
              exists i :: 0 <= i < |xs| && xs[i] == FirstSearch(matches, xs).value.value &&
                          matches(xs[i]) == Returned(true) &&
                          forall j :: 0 <= j < i ==> matches(xs[j]) == Returned(false)
    ensures FirstSearch(matches, xs) == Returned(None) <==> forall j :: 0 <= j < |xs| ==> matches(xs[j]) == Returned(false)
  {
    if xs != [] {
      FirstSearchIsFirst(matches, xs[1..]);
      assert forall j :: 1 <= j < |xs| ==> xs[j] == xs[1..][j - 1];
      var r := FirstSearch(matches, xs);
      if matches(xs[0]) == Returned(false) && r.Returned? && r.value.Some? {
        var i :| 0 <= i < |xs[1..]| && xs[1..][i] == r.value.value && matches(xs[1..][i]) == Returned(true) &&
                 forall j :: 0 <= j < i ==> matches(xs[1..][j]) == Returned(false);
        assert xs[i + 1] == r.value.value;
        assert forall j :: 0 <= j < i + 1 ==> matches(xs[j]) == Returned(false) by {
          forall j | 0 <= j < i + 1 ensures matches(xs[j]) == Returned(false) {
            if j > 0 {
              assert xs[j] == xs[1..][j - 1];
            }
          }
        }
      }
      if matches(xs[0]) == Returned(true) {
        assert xs[0] == r.value.value;
      }
    }
  }

  /** `first()`: with an always-true predicate the first input is
      published. */
  lemma FirstOfAll<V, E>(matches: V -> Try<bool, E>, xs: seq<V>)
    requires forall x :: matches(x) == Returned(true)
    ensures xs != [] ==> FirstSearch(matches, xs) == Returned(Some(xs[0]))
    ensures xs == [] ==> FirstSearch(matches, xs) == Returned(None)
  {
  }

  /** What the downstream receives for a search result: the match, if
      any. */
  function Published<V, E>(r: Try<Option<V>, E>): (vs: seq<V>)
    ensures |vs| <= 1
    ensures |vs| == 1 <==> r.Returned? && r.value.Some?
    ensures |vs| == 1 ==> vs[0] == r.value.value
  {
    if r.Returned? && r.value.Some? then [r.value.value] else []
  }

  /** A `first(where:)`/`tryFirst(where:)` channel. */
  class FirstChannel<V, E> {
    const chan: Channel<V, E>
    const matches: V -> Try<bool, E>
    /** The inputs `filterInput` has run on. */
    ghost var inputs: seq<V>

    /** While open, nothing has matched; the downstream has received the
        first match, if any, and nothing else. */
    ghost predicate Valid()
      reads this, chan
    {
      chan.Valid() &&
      (chan.hasThrown ==> chan.event.IsCompleted()) &&
      (chan.hasThrown <==> FirstSearch(matches, inputs).Threw?) &&
      (!chan.event.IsCompleted() ==> FirstSearch(matches, inputs) == Returned(None)) &&
      Values(chan.sent) == Published(FirstSearch(matches, inputs))
    }

    constructor (id: SubId, matches: V -> Try<bool, E>)
      ensures Valid() && fresh(chan) && chan.id == id && chan.event == Pending && chan.sent == []
      ensures this.matches == matches && inputs == []
    {
      chan := new Channel(id);
      this.matches := matches;
      inputs := [];
    }

    method ReceiveSubscription(s: SubId)
      requires Valid()
      modifies chan
      ensures Valid()
      ensures chan.event == AcceptSubscription(old(chan.event), s).1
      ensures chan.sent == if old(chan.event).Pending? then old(chan.sent) + [Subscribe(chan.id)] else old(chan.sent)
    {
      chan.TransformReceiveSubscription(s);
      ValuesAppend(old(chan.sent), [Subscribe(chan.id)]);
    }

    /** A match is published and followed by `finished`; `filterInput`
        then returns false, so the match is not published a second time.
        Every input returns `.none`. */
    method ReceiveInput(x: V, reply: Demand) returns (d: Demand)
      requires Valid()
      modifies this, chan
      ensures Valid() && d == Zero
      ensures !old(chan.event.IsOpen()) ==> inputs == old(inputs) && chan.sent == old(chan.sent)
      ensures old(chan.event.IsOpen()) ==> inputs == old(inputs) + [x]
      ensures old(chan.event.IsOpen()) ==>
                match matches(x)
                case Returned(b) =>
                  chan.sent == old(chan.sent) + (if b then [Value(x), Completed(Finished)] else [])
                case Threw(e) =>
                  chan.hasThrown && chan.sent == old(chan.sent) + [Completed(Failure(e))]
    {
      if !chan.IsOpen() {
        return Zero;
      }
      FirstSearchSnoc(matches, inputs, x);
      var outcome: Outcome<V, E>;
      match matches(x) {
        case Returned(b) =>
          if b {
            assert Values(chan.sent) == Published<V, E>(Returned(None)) == [];
            Found(x);
          }
          outcome := FilterOutcome(x, Returned(false));
        case Threw(e) =>
          ValuesAppendCompletion(chan.sent, Failure(e));
          outcome := FilterOutcome(x, Threw(e));
      }
      inputs := inputs + [x];
      d := chan.Forward(outcome, reply);
    }

    /** Inside `filterInput`, on a match: the match goes to the downstream
        and is followed by `finished`. */
    method Found(x: V)
      requires chan.Valid() && chan.event.IsOpen() && Values(chan.sent) == []
      modifies chan
      ensures chan.Valid() && chan.hasThrown == old(chan.hasThrown)
      ensures chan.event == SubscribedWith(old(chan.event).subscription, true)
      ensures chan.sent == old(chan.sent) + [Value(x), Completed(Finished)]
      ensures Values(chan.sent) == [x]
    {
      var s0 := chan.sent;
      ValuesAppend(s0, [Value(x), Completed(Finished)]);
      var one: seq<Signal<V, E>> := [Value(x)];
      assert Values<V, E>([Value(x), Completed(Finished)]) == [x] by {
        assert [Value(x), Completed(Finished)][..1] == one;
        assert one[..0] == [];
      }
      chan.Deliver(Value(x));
      var _ := chan.TransformReceiveCompletion(Finished, None);
      assert chan.sent == s0 + [Value(x), Completed(Finished)];
    }

    /** No match before completion: the completion arrives with no value. */
    method ReceiveCompletion(c: Completion<E>)
      requires Valid()
      modifies chan
      ensures Valid()
      ensures !old(chan.event.IsOpen()) ==> chan.sent == old(chan.sent)
      ensures old(chan.event.IsOpen()) ==> FirstSearch(matches, inputs) == Returned(None) && chan.sent == old(chan.sent) + [Completed(c)]
    {
      ValuesAppendCompletion(chan.sent, c);
      var _ := chan.TransformReceiveCompletion(c, None);
      assert old(chan.sent) + [] == old(chan.sent);
    }
  }
}
