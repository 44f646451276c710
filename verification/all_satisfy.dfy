/** `AllSatisfyBase`: publishes, on completion, whether every input
    satisfied the predicate. */
module AllSatisfy {
  import opened Wrappers
  import opened Demands
  import opened Completions
  import opened Signals
  import opened SubscriptionState
  import opened Channels

  /** One input: once the answer is false the predicate is not called
      again; otherwise the answer becomes the predicate's verdict. */
  function AllStep<V, E>(satisfies: V -> Try<bool, E>, allSatisfy: Option<bool>, x: V): Try<Option<bool>, E>
  {
    if allSatisfy == Some(false) then Returned(allSatisfy)
    else match satisfies(x)
      case Threw(e) => Threw(e)
      case Returned(b) => Returned(Some(b))
  }

  /** The stored answer after inputs `xs`, or the first error thrown. */
  function AllSoFar<V, E>(satisfies: V -> Try<bool, E>, xs: seq<V>): Try<Option<bool>, E>
  {
    if xs == [] then Returned(None)
    else match AllSoFar(satisfies, xs[..|xs| - 1])
      case Threw(e) => Threw(e)
      case Returned(a) => AllStep(satisfies, a, xs[|xs| - 1])
  }

  lemma AllSoFarSnoc<V, E>(satisfies: V -> Try<bool, E>, xs: seq<V>, x: V)
    ensures AllSoFar(satisfies, xs + [x]) ==
              match AllSoFar(satisfies, xs)
              case Threw(e) => Threw(e)
              case Returned(a) => AllStep(satisfies, a, x)
  {
    assert (xs + [x])[..|xs|] == xs;
  }

  /** Once the answer is false, the step does not depend on the predicate
      at all: it is never evaluated again. */
  lemma FalseIsFinal<V, E>(p: V -> Try<bool, E>, q: V -> Try<bool, E>, x: V)
    ensures AllStep(p, Some(false), x) == AllStep(q, Some(false), x) == Returned(Some(false))
  {
  }

  /** The value published on completion. */
  function Published(a: Option<bool>): bool {
    a.GetOr(true)
  }

  /** With a predicate that never throws, the published answer is true
      exactly when every input satisfies the predicate; an empty stream
      publishes true. */
  lemma {:induction false} AllSatisfyIff<V, E>(satisfies: V -> Try<bool, E>, xs: seq<V>)
    requires forall i :: 0 <= i < |xs| ==> satisfies(xs[i]).Returned?
    ensures AllSoFar(satisfies, xs).Returned?
    ensures AllSoFar(satisfies, xs).value.None? <==> xs == []
    ensures Published(AllSoFar(satisfies, xs).value) <==> forall i :: 0 <= i < |xs| ==> satisfies(xs[i]) == Returned(true)
  {
    if xs != [] {
      var ys, y := xs[..|xs| - 1], xs[|xs| - 1];
      assert xs == ys + [y];
      AllSatisfyIff(satisfies, ys);
      AllSoFarSnoc(satisfies, ys, y);
      assert forall i :: 0 <= i < |ys| ==> xs[i] == ys[i];
      var b := satisfies(y).value;
      assert satisfies(y) == Returned(b);
    }
  }

  /** An `allSatisfy`/`tryAllSatisfy` channel. */
  class AllSatisfyChannel<V, E> {
    const chan: Channel<bool, E>
    const satisfies: V -> Try<bool, E>
    var allSatisfy: Option<bool>
    /** The inputs `transformInput` has run on. */
    ghost var inputs: seq<V>

    ghost predicate Valid()
      reads this, chan
    {
      chan.Valid() &&
      (chan.hasThrown ==> chan.event.IsCompleted()) &&
      (chan.hasThrown <==> AllSoFar(satisfies, inputs).Threw?) &&
      (!chan.hasThrown ==> AllSoFar(satisfies, inputs) == Returned(allSatisfy)) &&
      (!chan.event.IsCompleted() ==> Values(chan.sent) == [])
    }

    constructor (id: SubId, satisfies: V -> Try<bool, E>)
      ensures Valid() && fresh(chan) && chan.id == id && chan.event == Pending && chan.sent == []
      ensures this.satisfies == satisfies && allSatisfy == None && inputs == []
    {
      chan := new Channel(id);
      this.satisfies := satisfies;
      allSatisfy := None;
      inputs := [];
    }

    method ReceiveSubscription(s: SubId)
      requires Valid()
      modifies chan
      ensures Valid()
      ensures chan.event == AcceptSubscription(old(chan.event), s).1
      ensures chan.sent == if old(chan.event).Pending? then old(chan.sent) + [Subscribe(chan.id)] else old(chan.sent)
    {
      chan.TransformReceiveSubscription(s);
      ValuesAppend(old(chan.sent), [Subscribe(chan.id)]);
    }

    /** Each input updates the stored answer and publishes nothing. */
    method ReceiveInput(x: V, reply: Demand) returns (d: Demand)
      requires Valid()
      modifies this, chan
      ensures Valid() && d == Zero
      ensures !old(chan.event.IsOpen()) ==> allSatisfy == old(allSatisfy) && inputs == old(inputs) && chan.sent == old(chan.sent)
      ensures old(chan.event.IsOpen()) ==> inputs == old(inputs) + [x]
      ensures old(chan.event.IsOpen()) && AllStep(satisfies, old(allSatisfy), x).Returned? ==>
                allSatisfy == AllStep(satisfies, old(allSatisfy), x).value && chan.sent == old(chan.sent)
      ensures old(chan.event.IsOpen()) && AllStep(satisfies, old(allSatisfy), x).Threw? ==>
                chan.hasThrown && chan.sent == old(chan.sent) + [Completed(Failure(AllStep(satisfies, old(allSatisfy), x).error))]
    {
      if !chan.IsOpen() {
        return Zero;
      }
      AllSoFarSnoc(satisfies, inputs, x);
      var outcome: Outcome<bool, E> := Drop;
      if allSatisfy == None || allSatisfy == Some(true) {
        match satisfies(x) {
          case Returned(b) =>
            allSatisfy := Some(b);
          case Threw(e) =>
            outcome := Throw(e);
        }
      }
      inputs := inputs + [x];
      d := chan.Forward(outcome, reply);
    }

    /** `willComplete` publishes the stored answer, true if there is none. */
    method ReceiveCompletion(c: Completion<E>)
      requires Valid()
      modifies chan
      ensures Valid()
      ensures !old(chan.event.IsOpen()) ==> chan.sent == old(chan.sent)
      ensures old(chan.event.IsOpen()) && !chan.hasThrown ==>
                chan.sent == old(chan.sent) + [Value(Published(AllSoFar(satisfies, inputs).value)), Completed(c)]
    {
      var _ := chan.TransformReceiveCompletion(c, Some(Published(allSatisfy)));
    }
  }
}
