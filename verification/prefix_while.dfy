/** `PrefixWhileBase`: republishes inputs while the predicate holds and
    finishes at the first input it rejects. */
module PrefixWhile {
  import opened Wrappers
  import opened Demands
  import opened Completions
  import opened Signals
  import opened SubscriptionState
  import opened Channels

  /** The longest prefix of `xs` whose every input the predicate accepts. */
  function TakeWhile<V, E>(continues: V -> Try<bool, E>, xs: seq<V>): seq<V>
  {
    if xs != [] && continues(xs[0]) == Returned(true) then [xs[0]] + TakeWhile(continues, xs[1..]) else []
  }

  /** The published inputs form a prefix of the inputs, all accepted, and
      the input right after it (if any) was rejected or threw. */
  lemma {:induction false} TakeWhileIsLongestPrefix<V, E>(continues: V -> Try<bool, E>, xs: seq<V>)
    ensures |TakeWhile(continues, xs)| <= |xs|
    ensures TakeWhile(continues, xs) == xs[..|TakeWhile(continues, xs)|]
    ensures forall i :: 0 <= i < |TakeWhile(continues, xs)| ==> continues(xs[i]) == Returned(true)
    ensures |TakeWhile(continues, xs)| < |xs| ==> continues(xs[|TakeWhile(continues, xs)|]) != Returned(true)
  {
    if xs != [] && continues(xs[0]) == Returned(true) {
      TakeWhileIsLongestPrefix(continues, xs[1..]);
      var t := TakeWhile(continues, xs[1..]);
      assert TakeWhile(continues, xs) == [xs[0]] + t;
      assert forall i :: 1 <= i <= |t| ==> xs[i] == xs[1..][i - 1];
    }
  }

  /** While every input so far was accepted, one more input extends the
      prefix exactly when it is accepted too. */
  lemma {:induction false} TakeWhileSnoc<V, E>(continues: V -> Try<bool, E>, xs: seq<V>, x: V)
    requires TakeWhile(continues, xs) == xs
    ensures TakeWhile(continues, xs + [x]) == xs + (if continues(x) == Returned(true) then [x] else [])
  {
    if xs == [] {
      assert [x][1..] == [];
    } else {
      assert (xs + [x])[0] == xs[0] && (xs + [x])[1..] == xs[1..] + [x];
      assert continues(xs[0]) == Returned(true);
      TakeWhileSnoc(continues, xs[1..], x);
    }
  }

  /** A `prefix(while:)`/`tryPrefix(while:)` channel. */
  class PrefixWhileChannel<V, E> {
    const chan: Channel<V, E>
    const continues: V -> Try<bool, E>
    /** The inputs `transformInput` has run on. */
    ghost var inputs: seq<V>

    /** The downstream has received the accepted prefix of the inputs;
        while the edge is not completed, every input was accepted. */
    ghost predicate Valid()
      reads this, chan
    {
      chan.Valid() &&
      (chan.hasThrown ==> chan.event.IsCompleted()) &&
      (!chan.event.IsCompleted() ==> TakeWhile(continues, inputs) == inputs) &&
      Values(chan.sent) == TakeWhile(continues, inputs)
    }

    constructor (id: SubId, continues: V -> Try<bool, E>)
      ensures Valid() && fresh(chan) && chan.id == id && chan.event == Pending && chan.sent == []
      ensures this.continues == continues && inputs == []
    {
      chan := new Channel(id);
      this.continues := continues;
      inputs := [];
    }

    method ReceiveSubscription(s: SubId)
      requires Valid()
      modifies chan
      ensures Valid()
      ensures chan.event == AcceptSubscription(old(chan.event), s).1
      ensures chan.sent == if old(chan.event).Pending? then old(chan.sent) + [Subscribe(chan.id)] else old(chan.sent)
    {
      chan.TransformReceiveSubscription(s);
      ValuesAppend(old(chan.sent), [Subscribe(chan.id)]);
    }

    /** An accepted input is published and the downstream's answer
        returned; the first rejected input finishes the downstream and
        returns `.none`; a throw fails it. */
    method ReceiveInput(x: V, reply: Demand) returns (d: Demand)
      requires Valid()
      modifies this, chan
      ensures Valid()
      ensures !old(chan.event.IsOpen()) ==> d == Zero && inputs == old(inputs) && chan.sent == old(chan.sent)
      ensures old(chan.event.IsOpen()) ==> inputs == old(inputs) + [x]
      ensures old(chan.event.IsOpen()) ==>
                match continues(x)
                case Returned(b) =>
                  if b then d == reply && chan.sent == old(chan.sent) + [Value(x)]
                  else d == Zero && chan.event.IsFinished() && chan.sent == old(chan.sent) + [Completed(Finished)]
                case Threw(e) =>
                  d == Zero && chan.hasThrown && chan.sent == old(chan.sent) + [Completed(Failure(e))]
    {
      if !chan.IsOpen() {
        return Zero;
      }
      TakeWhileSnoc(continues, inputs, x);
      assert inputs + [] == inputs;
      var outcome: Outcome<V, E>;
      match continues(x) {
        case Returned(b) =>
          if b {
            outcome := Emit(x);
            ValuesAppendValue(chan.sent, x);
          } else {
            ghost var s0 := chan.sent;
            ValuesAppendCompletion(s0, Finished);
            var _ := chan.TransformReceiveCompletion(Finished, None);
            assert chan.sent == s0 + [Completed(Finished)];
            outcome := Drop;
          }
        case Threw(e) =>
          outcome := Throw(e);
          ValuesAppendCompletion(chan.sent, Failure(e));
      }
      inputs := inputs + [x];
      d := chan.Forward(outcome, reply);
    }

    method ReceiveCompletion(c: Completion<E>)
      requires Valid()
      modifies chan
      ensures Valid()
      ensures !old(chan.event.IsOpen()) ==> chan.sent == old(chan.sent)
      ensures old(chan.event.IsOpen()) ==> chan.sent == old(chan.sent) + [Completed(c)]
    {
      ValuesAppendCompletion(chan.sent, c);
      var _ := chan.TransformReceiveCompletion(c, None);
      assert old(chan.sent) + [] == old(chan.sent);
    }
  }
}
