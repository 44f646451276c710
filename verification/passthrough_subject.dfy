/** `_PassthroughSubject`: broadcasts the values it is sent to every
    subscriber with demand, latches its completion, and asks its own
    upstreams for unlimited values once some subscriber first requests. */
module PassthroughSubject {
  import opened Wrappers
  import opened Demands
  import opened Completions
  import opened Signals
  import opened SubjectLeading

  /** `_Subscriptions.Leading.PassthroughSubject`. */
  class PassthroughLeading<V, E> {
    const id: SubId
    var subject: PassthroughSubject?<V, E>
    var hasDownstream: bool
    var demand: Demand
    /** What this subscription's downstream has received. */
    var received: seq<Signal<V, E>>

    ghost function State(): LeadingState<V, E>
      reads this
    {
      LeadingState(subject != null, hasDownstream, demand, received)
    }

    /** Created by `receive(subscriber:)`, which hands it to the
        subscriber. */
    constructor (id: SubId, subject: PassthroughSubject<V, E>)
      ensures this.id == id && this.subject == subject && hasDownstream && demand == Zero
      ensures received == [Subscribe(id)] && State().Valid()
    {
      this.id := id;
      this.subject := subject;
      hasDownstream := true;
      demand := Zero;
      received := [Subscribe(id)];
    }

    method Cancel()
      modifies this`subject, this`hasDownstream
      ensures State() == CancelStep(old(State())) && subject == null
    {
      subject := null;
      hasDownstream := false;
    }

    /** `request(_:)`: adds to the demand and lets the subject start its
        upstreams if this is the first request it sees. */
    method Request(d: Demand)
      modifies this`demand, subject
      ensures demand == Plus(old(demand), d) && subject == old(subject)
      ensures subject != null ==>
                subject.isUpstreamPublishingNeeded &&
                subject.downstreams == old(subject.downstreams) && subject.upstreams == old(subject.upstreams) &&
                subject.completion == old(subject.completion) &&
                subject.calls == if old(subject.isUpstreamPublishingNeeded) then old(subject.calls)
                                 else old(subject.calls) + RequestAll(subject.upstreams, Unlimited)
    {
      demand := Plus(demand, d);
      if subject != null {
        subject.RequestUpstreamToPublishIfNeeded();
      }
    }

    method ReceiveValue(x: V, reply: Demand)
      modifies this`demand, this`received
      ensures State() == ReceiveValueStep(old(State()), x, reply)
    {
      var answer := if hasDownstream then reply else Zero;
      if hasDownstream {
        received := received + [Value(x)];
      }
      demand := Plus(demand, answer);
      demand := Minus(demand, Max(1));
    }

    method ReceiveCompletion(c: Completion<E>)
      modifies this`subject, this`hasDownstream, this`received
      ensures State() == ReceiveCompletionStep(old(State()), c) && subject == null
    {
      subject := null;
      if hasDownstream {
        received := received + [Completed(c)];
      }
      hasDownstream := false;
    }
  }

  class PassthroughSubject<V, E> {
    var downstreams: seq<PassthroughLeading<V, E>>
    var completion: Option<Completion<E>>
    /** The subscriptions of publishers this subject is subscribed to. */
    var upstreams: seq<SubId>
    var isUpstreamPublishingNeeded: bool
    /** The requests made on `upstreams`. */
    var calls: seq<UpCall>

    ghost function Leadings(): set<PassthroughLeading<V, E>>
      reads this
    {
      set l | l in downstreams
    }

    /** Each subscription is registered once and, while attached, points
        back to this subject; every upstream has been asked for unlimited
        values exactly once as soon as, and only once, publishing is
        needed. */
    ghost predicate Valid()
      reads this, Leadings()
    {
      (forall i, j :: 0 <= i < j < |downstreams| ==> downstreams[i] != downstreams[j]) &&
      (forall l :: l in downstreams ==> l.subject == null || l.subject == this) &&
      calls == if isUpstreamPublishingNeeded then RequestAll(upstreams, Unlimited) else []
    }

    constructor ()
      ensures Valid() && downstreams == [] && completion == None && upstreams == []
      ensures !isUpstreamPublishingNeeded && calls == []
    {
      downstreams := [];
      completion := None;
      upstreams := [];
      isUpstreamPublishingNeeded := false;
      calls := [];
    }

    /** `send(_:)`: every subscription with a live subject and demand
        above 0 delivers the value; the i-th subscription's downstream
        answers `reply(i)`. */
    method Send(x: V, reply: nat -> Demand)
      requires Valid()
      modifies Leadings()
      ensures Valid()
      ensures forall i :: 0 <= i < |downstreams| ==>
                downstreams[i].State() == SendStep(old(downstreams[i].State()), x, reply(i))
    {
      ghost var ds := downstreams;
      var i := 0;
      while i < |downstreams|
        invariant 0 <= i <= |ds| && downstreams == ds
        invariant forall j :: 0 <= j < i ==> ds[j].State() == SendStep(old(ds[j].State()), x, reply(j))
        invariant forall j :: i <= j < |ds| ==> ds[j].State() == old(ds[j].State())
        invariant forall l :: l in ds ==> l.subject == old(l.subject)
      {
        var d := downstreams[i];
        assert forall j :: 0 <= j < |ds| && j != i ==> ds[j] != d;
        if d.subject != null && Greater(d.demand, Zero) {
          d.ReceiveValue(x, reply(i));
        }
        i := i + 1;
      }
    }

    /** `send(completion:)`: latches the completion and passes it to every
        registered subscription, each of which then detaches. */
    method SendCompletion(c: Completion<E>)
      requires Valid()
      modifies this`completion, Leadings()
      ensures Valid() && completion == Some(c)
      ensures forall i :: 0 <= i < |downstreams| ==>
                downstreams[i].State() == ReceiveCompletionStep(old(downstreams[i].State()), c)
    {
      completion := Some(c);
      ghost var ds := downstreams;
      var i := 0;
      while i < |downstreams|
        invariant 0 <= i <= |ds| && downstreams == ds
        invariant forall j :: 0 <= j < i ==> ds[j].State() == ReceiveCompletionStep(old(ds[j].State()), c)
        invariant forall j :: i <= j < |ds| ==> ds[j].State() == old(ds[j].State())
        invariant forall l :: l in ds ==> l.subject == null || l.subject == this
        invariant completion == Some(c)
      {
        var d := downstreams[i];
        assert forall j :: 0 <= j < |ds| && j != i ==> ds[j] != d;
        d.ReceiveCompletion(c);
        i := i + 1;
      }
    }

    /** `send(subscription:)`: the upstream is kept, and asked for
        unlimited values right away only if publishing is already needed. */
    method SendSubscription(s: SubId)
      requires Valid()
      modifies this`upstreams, this`calls
      ensures Valid() && upstreams == old(upstreams) + [s]
      ensures calls == if isUpstreamPublishingNeeded then old(calls) + [RequestCall(s, Unlimited)] else old(calls)
    {
      assert (upstreams + [s])[..|upstreams|] == upstreams;
      upstreams := upstreams + [s];
      if isUpstreamPublishingNeeded {
        calls := calls + [RequestCall(s, Unlimited)];
      }
    }

    /** `requestUpstreamToPublishIfNeeded()`: the first call sets the flag
        and asks every upstream for unlimited values; later calls do
        nothing. */
    method RequestUpstreamToPublishIfNeeded()
      modifies this`isUpstreamPublishingNeeded, this`calls
      ensures isUpstreamPublishingNeeded
      ensures calls == if old(isUpstreamPublishingNeeded) then old(calls) else old(calls) + RequestAll(upstreams, Unlimited)
    {
      if isUpstreamPublishingNeeded {
        return;
      }
      isUpstreamPublishingNeeded := true;
      var i := 0;
      while i < |upstreams|
        invariant 0 <= i <= |upstreams|
        invariant isUpstreamPublishingNeeded
        invariant calls == old(calls) + RequestAll(upstreams[..i], Unlimited)
      {
        assert upstreams[..i + 1][..i] == upstreams[..i];
        calls := calls + [RequestCall(upstreams[i], Unlimited)];
        i := i + 1;
      }
      assert upstreams[..i] == upstreams;
    }

    /** `receive(subscriber:)`: after completion the subscriber gets the
        empty subscription and the latched completion; before, it gets a
        new leading subscription, which is registered. */
    method ReceiveSubscriber(id: SubId) returns (leading: PassthroughLeading?<V, E>, received: seq<Signal<V, E>>)
      requires Valid()
      modifies this`downstreams
      ensures Valid()
      ensures completion.Some? ==>
                leading == null && downstreams == old(downstreams) &&
                received == [Subscribe(EmptySubscription), Completed(completion.value)]
      ensures completion.None? ==>
                leading != null && fresh(leading) && leading.id == id && leading.subject == this &&
                leading.State().Valid() && leading.demand == Zero &&
                downstreams == old(downstreams) + [leading] && received == leading.received
    {
      if completion.Some? {
        return null, [Subscribe(EmptySubscription), Completed(completion.value)];
      }
      leading := new PassthroughLeading(id, this);
      downstreams := downstreams + [leading];
      received := leading.received;
    }
  }

  /** Under `Valid`, the whole sequence of calls an upstream sees is one
      unlimited request, once publishing is needed. */
  lemma UpstreamRequestedOnce<V, E>(subject: PassthroughSubject<V, E>, k: nat)
    requires subject.Valid() && k < |subject.upstreams|
    ensures subject.isUpstreamPublishingNeeded ==>
              |subject.calls| == |subject.upstreams| && subject.calls[k] == RequestCall(subject.upstreams[k], Unlimited)
    ensures !subject.isUpstreamPublishingNeeded ==> subject.calls == []
  {
  }
}
