/** `_CurrentValueSubject`: wraps a value, broadcasts every new value to
    the subscribers with demand, and hands the current value to a
    subscriber on each of its requests. */
module CurrentValueSubject {
  import opened Wrappers
  import opened Demands
  import opened Completions
  import opened Signals
  import opened SubjectLeading

  /** `_Subscriptions.Leading.CurrentValueSubject`. */
  class CurrentValueLeading<V, E> {
    const id: SubId
    var subject: CurrentValueSubject?<V, E>
    var hasDownstream: bool
    var demand: Demand
    /** What this subscription's downstream has received. */
    var received: seq<Signal<V, E>>

    ghost function State(): LeadingState<V, E>
      reads this
    {
      LeadingState(subject != null, hasDownstream, demand, received)
    }

    constructor (id: SubId, subject: CurrentValueSubject<V, E>)
      ensures this.id == id && this.subject == subject && hasDownstream && demand == Zero
      ensures received == [Subscribe(id)] && State().Valid()
    {
      this.id := id;
      this.subject := subject;
      hasDownstream := true;
      demand := Zero;
      received := [Subscribe(id)];
    }

    method Cancel()
      modifies this`subject, this`hasDownstream
      ensures State() == CancelStep(old(State())) && subject == null
    {
      subject := null;
      hasDownstream := false;
    }

    /** `request(_:)`: adds to the demand and, while attached, delivers the
        subject's current value at once, whatever the demand now is; the
        downstream answers `reply`. */
    method Request(d: Demand, reply: Demand)
      modifies this`demand, this`received
      ensures old(subject) == null ==> State() == old(State()).(demand := Plus(old(demand), d))
      ensures old(subject) != null ==>
                State() == ReceiveValueStep(old(State()).(demand := Plus(old(demand), d)), subject.current, reply)
    {
      demand := Plus(demand, d);
      if subject != null {
        ReceiveValue(subject.current, reply);
      }
    }

    method ReceiveValue(x: V, reply: Demand)
      modifies this`demand, this`received
      ensures State() == ReceiveValueStep(old(State()), x, reply)
    {
      var answer := if hasDownstream then reply else Zero;
      if hasDownstream {
        received := received + [Value(x)];
      }
      demand := Plus(demand, answer);
      demand := Minus(demand, Max(1));
    }

    method ReceiveCompletion(c: Completion<E>)
      modifies this`subject, this`hasDownstream, this`received
      ensures State() == ReceiveCompletionStep(old(State()), c) && subject == null
    {
      subject := null;
      if hasDownstream {
        received := received + [Completed(c)];
      }
      hasDownstream := false;
    }
  }

  class CurrentValueSubject<V, E> {
    var downstreams: seq<CurrentValueLeading<V, E>>
    var completion: Option<Completion<E>>
    var upstreams: seq<SubId>
    /** `_value` */
    var current: V
    /** The requests made on `upstreams`. */
    var calls: seq<UpCall>

    ghost function Leadings(): set<CurrentValueLeading<V, E>>
      reads this
    {
      set l | l in downstreams
    }

    /** Each subscription is registered once and, while attached, points
        back to this subject; every upstream was asked for unlimited
        values once, on arrival. */
    ghost predicate Valid()
      reads this, Leadings()
    {
      (forall i, j :: 0 <= i < j < |downstreams| ==> downstreams[i] != downstreams[j]) &&
      (forall l :: l in downstreams ==> l.subject == null || l.subject == this) &&
      calls == RequestAll(upstreams, Unlimited)
    }

    constructor (value: V)
      ensures Valid() && current == value && downstreams == [] && completion == None
      ensures upstreams == [] && calls == []
    {
      downstreams := [];
      completion := None;
      upstreams := [];
      current := value;
      calls := [];
    }

    /** The `value` getter. */
    function Value(): V
      reads this
    {
      current
    }

    /** `send(_:)`: stores the value first, then every subscription with a
        live subject and demand above 0 delivers it; the i-th
        subscription's downstream answers `reply(i)`. */
    method Send(x: V, reply: nat -> Demand)
      requires Valid()
      modifies this`current, Leadings()
      ensures Valid() && current == x && Value() == x
      ensures forall i :: 0 <= i < |downstreams| ==>
                downstreams[i].State() == SendStep(old(downstreams[i].State()), x, reply(i))
    {
      current := x;
      ghost var ds := downstreams;
      var i := 0;
      while i < |downstreams|
        invariant 0 <= i <= |ds| && downstreams == ds && current == x
        invariant forall j :: 0 <= j < i ==> ds[j].State() == SendStep(old(ds[j].State()), x, reply(j))
        invariant forall j :: i <= j < |ds| ==> ds[j].State() == old(ds[j].State())
        invariant forall l :: l in ds ==> l.subject == old(l.subject)
      {
        var d := downstreams[i];
        assert forall j :: 0 <= j < |ds| && j != i ==> ds[j] != d;
        if d.subject != null && Greater(d.demand, Zero) {
          d.ReceiveValue(x, reply(i));
        }
        i := i + 1;
      }
    }

    /** The `value` setter is `send`. */
    method SetValue(x: V, reply: nat -> Demand)
      requires Valid()
      modifies this`current, Leadings()
      ensures Valid() && Value() == x
      ensures forall i :: 0 <= i < |downstreams| ==>
                downstreams[i].State() == SendStep(old(downstreams[i].State()), x, reply(i))
    {
      Send(x, reply);
    }

    /** `send(completion:)`: latches the completion and passes it to every
        registered subscription, each of which then detaches. */
    method SendCompletion(c: Completion<E>)
      requires Valid()
      modifies this`completion, Leadings()
      ensures Valid() && completion == Some(c)
      ensures forall i :: 0 <= i < |downstreams| ==>
                downstreams[i].State() == ReceiveCompletionStep(old(downstreams[i].State()), c)
    {
      completion := Some(c);
      ghost var ds := downstreams;
      var i := 0;
      while i < |downstreams|
        invariant 0 <= i <= |ds| && downstreams == ds
        invariant forall j :: 0 <= j < i ==> ds[j].State() == ReceiveCompletionStep(old(ds[j].State()), c)
        invariant forall j :: i <= j < |ds| ==> ds[j].State() == old(ds[j].State())
        invariant forall l :: l in ds ==> l.subject == null || l.subject == this
        invariant completion == Some(c)
      {
        var d := downstreams[i];
        assert forall j :: 0 <= j < |ds| && j != i ==> ds[j] != d;
        d.ReceiveCompletion(c);
        i := i + 1;
      }
    }

    /** `send(subscription:)`: the upstream is kept and always asked for
        unlimited values right away. */
    method SendSubscription(s: SubId)
      requires Valid()
      modifies this`upstreams, this`calls
      ensures Valid() && upstreams == old(upstreams) + [s]
      ensures calls == old(calls) + [RequestCall(s, Unlimited)]
    {
      assert (upstreams + [s])[..|upstreams|] == upstreams;
      upstreams := upstreams + [s];
      calls := calls + [RequestCall(s, Unlimited)];
    }

    /** `receive(subscriber:)`: after completion the subscriber gets the
        empty subscription and the latched completion; before, it gets a
        new leading subscription, which is registered. */
    method ReceiveSubscriber(id: SubId) returns (leading: CurrentValueLeading?<V, E>, received: seq<Signal<V, E>>)
      requires Valid()
      modifies this`downstreams
      ensures Valid()
      ensures completion.Some? ==>
                leading == null && downstreams == old(downstreams) &&
                received == [Subscribe(EmptySubscription), Completed(completion.value)]
      ensures completion.None? ==>
                leading != null && fresh(leading) && leading.id == id && leading.subject == this &&
                leading.State().Valid() && leading.demand == Zero &&
                downstreams == old(downstreams) + [leading] && received == leading.received
    {
      if completion.Some? {
        return null, [Subscribe(EmptySubscription), Completed(completion.value)];
      }
      leading := new CurrentValueLeading(id, this);
      downstreams := downstreams + [leading];
      received := leading.received;
    }
  }

  /** A request on an attached subscription delivers the current value
      even when it asks for nothing: `request(.none)` on a fresh
      subscription delivers one value and leaves the demand at 0. */
  lemma RequestNoneStillDelivers<V, E>(s: LeadingState<V, E>, current: V)
    requires s.Valid() && s.attached && s.demand == Zero
    ensures ReceiveValueStep(s.(demand := Plus(s.demand, Zero)), current, Zero).received == s.received + [Value(current)]
    ensures ReceiveValueStep(s.(demand := Plus(s.demand, Zero)), current, Zero).demand == Zero
  {
  }
}
