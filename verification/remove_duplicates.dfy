/** `RemoveDuplicatesBase`: passes an input on unless the predicate says it
    duplicates the input just before it. */
module RemoveDuplicates {
  import opened Wrappers
  import opened Demands
  import opened Completions
  import opened Signals
  import opened SubscriptionState
  import opened Channels

  /** One input against the previous input: the first input always passes;
      a later one passes iff the predicate returns false. Whatever the
      verdict, the input becomes the new `previous` (the source parks it in
      `this` and moves it in a `defer`, so this holds even on a throw). */
  function DedupStep<V, E>(isDuplicate: (V, V) -> Try<bool, E>, previous: Option<V>, x: V): (r: (Option<V>, Outcome<V, E>))
    ensures r.0 == Some(x)
  {
    match previous
    case None => (Some(x), Emit(x))
    case Some(p) =>
      match isDuplicate(p, x)
      case Threw(e) => (Some(x), Throw(e))
      case Returned(duplicate) => (Some(x), if duplicate then Drop else Emit(x))
  }

  /** The inputs of `xs` that pass: the first one, and every later one the
      predicate does not call a duplicate of its predecessor. */
  function Deduplicated<V, E>(isDuplicate: (V, V) -> Try<bool, E>, xs: seq<V>): seq<V>
  {
    if |xs| == 0 then []
    else if |xs| == 1 then [xs[0]]
    else Deduplicated(isDuplicate, xs[..|xs| - 1]) +
         (if isDuplicate(xs[|xs| - 2], xs[|xs| - 1]) == Returned(false) then [xs[|xs| - 1]] else [])
  }

  lemma DeduplicatedSnoc<V, E>(isDuplicate: (V, V) -> Try<bool, E>, xs: seq<V>, x: V)
    ensures Deduplicated(isDuplicate, xs + [x]) ==
              if xs == [] then [x]
              else Deduplicated(isDuplicate, xs) + (if isDuplicate(xs[|xs| - 1], x) == Returned(false) then [x] else [])
  {
    assert (xs + [x])[..|xs|] == xs;
  }

  /** One step keeps the published values equal to the deduplicated
      inputs: an input is published exactly when the step emits it. */
  lemma DedupStepExtends<V, E>(isDuplicate: (V, V) -> Try<bool, E>, xs: seq<V>, x: V)
    ensures Deduplicated(isDuplicate, xs + [x]) ==
              Deduplicated(isDuplicate, xs) +
              if DedupStep(isDuplicate, if xs == [] then None else Some(xs[|xs| - 1]), x).1.Emit? then [x] else []
  {
    if xs == [] {
      assert xs + [x] == [x];
    } else {
      DeduplicatedSnoc(isDuplicate, xs, x);
      var p := xs[|xs| - 1];
      match isDuplicate(p, x)
      case Threw(_) =>
      case Returned(duplicate) =>
        assert DedupStep(isDuplicate, Some(p), x).1 == if duplicate then Drop else Emit(x);
    }
  }

  /** The predicate is an equivalence that never throws. */
  ghost predicate Equivalence<V(!new), E>(isDuplicate: (V, V) -> Try<bool, E>) {
    (forall a, b :: isDuplicate(a, b).Returned?) &&
    (forall a :: isDuplicate(a, a) == Returned(true)) &&
    (forall a, b :: isDuplicate(a, b) == isDuplicate(b, a)) &&
    (forall a, b, c :: isDuplicate(a, b) == Returned(true) && isDuplicate(b, c) == Returned(true) ==> isDuplicate(a, c) == Returned(true))
  }

  /** The first input always passes; when the predicate is an equivalence
      (such as `==` for `removeDuplicates()`), no two consecutive outputs
      are duplicates, and the last output is equivalent to the last input. */
  lemma {:induction false} NoAdjacentDuplicates<V(!new), E>(isDuplicate: (V, V) -> Try<bool, E>, xs: seq<V>)
    requires Equivalence(isDuplicate)
    ensures xs != [] ==> |Deduplicated(isDuplicate, xs)| > 0 && Deduplicated(isDuplicate, xs)[0] == xs[0]
    ensures xs != [] ==> isDuplicate(Deduplicated(isDuplicate, xs)[|Deduplicated(isDuplicate, xs)| - 1], xs[|xs| - 1]) == Returned(true)
    ensures forall j :: 0 <= j < |Deduplicated(isDuplicate, xs)| - 1 ==>
              isDuplicate(Deduplicated(isDuplicate, xs)[j], Deduplicated(isDuplicate, xs)[j + 1]) == Returned(false)
  {
    if |xs| > 1 {
      var ys, y := xs[..|xs| - 1], xs[|xs| - 1];
      NoAdjacentDuplicates(isDuplicate, ys);
      var out := Deduplicated(isDuplicate, ys);
      var last := out[|out| - 1];
      var prev := ys[|ys| - 1];
      assert prev == xs[|xs| - 2];
      var b := isDuplicate(prev, y).value;
      assert isDuplicate(prev, y) == Returned(b);
      if !b {
        var c := isDuplicate(last, y).value;
        assert isDuplicate(last, y) == Returned(c);
        assert Deduplicated(isDuplicate, xs) == out + [y];
      } else {
        assert Deduplicated(isDuplicate, xs) == out;
      }
    }
  }

  /** A `removeDuplicates`/`tryRemoveDuplicates` channel. The source's
      `this` slot is always empty between calls and is not stored here. */
  class RemoveDuplicatesChannel<V, E> {
    const chan: Channel<V, E>
    const isDuplicate: (V, V) -> Try<bool, E>
    var previous: Option<V>
    /** The inputs `transformInput` has run on. */
    ghost var inputs: seq<V>

    /** `previous` is the latest input until completion, and the published
        values are the deduplicated inputs. */
    ghost predicate Valid()
      reads this, chan
    {
      chan.Valid() &&
      (chan.hasThrown ==> chan.event.IsCompleted()) &&
      (!chan.event.IsCompleted() ==> previous == if inputs == [] then None else Some(inputs[|inputs| - 1])) &&
      Values(chan.sent) == Deduplicated(isDuplicate, inputs)
    }

    constructor (id: SubId, isDuplicate: (V, V) -> Try<bool, E>)
      ensures Valid() && fresh(chan) && chan.id == id && chan.event == Pending && chan.sent == []
      ensures this.isDuplicate == isDuplicate && previous == None && inputs == []
    {
      chan := new Channel(id);
      this.isDuplicate := isDuplicate;
      previous := None;
      inputs := [];
    }

    method ReceiveSubscription(s: SubId)
      requires Valid()
      modifies chan
      ensures Valid()
      ensures chan.event == AcceptSubscription(old(chan.event), s).1
      ensures chan.sent == if old(chan.event).Pending? then old(chan.sent) + [Subscribe(chan.id)] else old(chan.sent)
    {
      chan.TransformReceiveSubscription(s);
      ValuesAppend(old(chan.sent), [Subscribe(chan.id)]);
    }

    /** An input that passes is published and the downstream's answer is
        returned; a duplicate returns `.none`. */
    method ReceiveInput(x: V, reply: Demand) returns (d: Demand)
      requires Valid()
      modifies this, chan
      ensures Valid()
      ensures !old(chan.event.IsOpen()) ==> d == Zero && previous == old(previous) && inputs == old(inputs) && chan.sent == old(chan.sent)
      ensures old(chan.event.IsOpen()) ==> inputs == old(inputs) + [x] && previous == Some(x)
      ensures old(chan.event.IsOpen()) ==>
                match DedupStep(isDuplicate, old(previous), x).1
                case Emit(_) => d == reply && chan.sent == old(chan.sent) + [Value(x)]
                case Drop => d == Zero && chan.sent == old(chan.sent)
                case Throw(e) => d == Zero && chan.hasThrown && chan.sent == old(chan.sent) + [Completed(Failure(e))]
    {
      if !chan.IsOpen() {
        return Zero;
      }
      DedupStepExtends(isDuplicate, inputs, x);
      var outcome := DedupStep(isDuplicate, previous, x).1;
      match outcome {
        case Emit(_) =>
          ValuesAppendValue(chan.sent, x);
        case Drop =>
        case Throw(e) =>
          ValuesAppendCompletion(chan.sent, Failure(e));
      }
      previous := Some(x);
      inputs := inputs + [x];
      d := chan.Forward(outcome, reply);
    }

    /** `willComplete` publishes nothing and forgets the previous input. */
    method ReceiveCompletion(c: Completion<E>)
      requires Valid()
      modifies this, chan
      ensures Valid()
      ensures !old(chan.event.IsOpen()) ==> chan.sent == old(chan.sent) && previous == old(previous)
      ensures old(chan.event.IsOpen()) ==> chan.sent == old(chan.sent) + [Completed(c)] && previous == None
    {
      ValuesAppendCompletion(chan.sent, c);
      var willComplete := chan.TransformReceiveCompletion(c, None);
      assert old(chan.sent) + [] == old(chan.sent);
      if willComplete {
        previous := None;
      }
    }
  }
}
