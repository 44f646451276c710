/** `_Subscriptions.Leading.Subject`: the subscription a subject hands to
    each subscriber. It holds the subject (`nil` once detached), the
    downstream (`nil` once detached) and the subscriber's demand. Both
    subjects' leading subscriptions receive values, completions and
    cancels in the same way; this module states that shared behaviour on
    a snapshot of one subscription's fields. */
module SubjectLeading {
  import opened Demands
  import opened Completions
  import opened Signals

  /** The fields of one leading subscription: whether `subject` and
      `downstream` are set, the demand, and what the downstream has
      received through it. */
  datatype LeadingState<+V, +E> = LeadingState(attached: bool, hasDownstream: bool, demand: Demand, received: seq<Signal<V, E>>)
  {
    /** Subject and downstream are set and cleared together, the demand is
        a valid one, and the downstream's trace is well formed and ends
        with a completion only once detached. */
    ghost predicate Valid() {
      attached == hasDownstream && demand.Valid() &&
      |received| > 0 && received[0].Subscribe? &&
      Disciplined(received) && (Terminated(received) ==> !hasDownstream)
    }
  }

  /** `receive(_:)`: the downstream's answer (0 when it is gone) is added
      to the demand, then one is taken off. */
  function ReceiveValueStep<V, E>(s: LeadingState<V, E>, x: V, reply: Demand): (r: LeadingState<V, E>)
    ensures r.attached == s.attached && r.hasDownstream == s.hasDownstream
  {
    s.(demand := Minus(Plus(s.demand, if s.hasDownstream then reply else Zero), Max(1)),
       received := if s.hasDownstream then s.received + [Value(x)] else s.received)
  }

  /** `receive(completion:)`: detaches from the subject, passes the
      completion on and drops the downstream. */
  function ReceiveCompletionStep<V, E>(s: LeadingState<V, E>, c: Completion<E>): (r: LeadingState<V, E>)
    ensures !r.attached && !r.hasDownstream && r.demand == s.demand
  {
    s.(attached := false, hasDownstream := false,
       received := if s.hasDownstream then s.received + [Completed(c)] else s.received)
  }

  /** `cancel()`: clears subject and downstream. */
  function CancelStep<V, E>(s: LeadingState<V, E>): (r: LeadingState<V, E>)
    ensures !r.attached && !r.hasDownstream && r.demand == s.demand && r.received == s.received
  {
    s.(attached := false, hasDownstream := false)
  }

  /** The `where` clause of `send(_:)`: a live subject and demand above 0. */
  predicate Eligible<V, E>(s: LeadingState<V, E>) {
    s.attached && Greater(s.demand, Zero)
  }

  /** One subscription's part in `send(_:)`. */
  function SendStep<V, E>(s: LeadingState<V, E>, x: V, reply: Demand): (r: LeadingState<V, E>)
    ensures Eligible(s) ==> r == ReceiveValueStep(s, x, reply)
    ensures !Eligible(s) ==> r == s
  {
    if Eligible(s) then ReceiveValueStep(s, x, reply) else s
  }

  /** Every step keeps a leading subscription well formed. */
  lemma StepsPreserveValid<V, E>(s: LeadingState<V, E>, x: V, reply: Demand, c: Completion<E>)
    requires s.Valid() && reply.Valid()
    ensures ReceiveValueStep(s, x, reply).Valid()
    ensures ReceiveCompletionStep(s, c).Valid()
    ensures CancelStep(s).Valid()
    ensures SendStep(s, x, reply).Valid()
  {
    if s.hasDownstream {
      DisciplinedAppend(s.received, Value(x));
      DisciplinedAppend(s.received, Completed(c));
    }
  }

  /** A delivery against a finite demand of n > 0 to a downstream that
      asks for nothing more leaves n - 1; unlimited stays unlimited, and a
      delivery never makes the demand negative. */
  lemma DeliveryConsumesOne<V, E>(s: LeadingState<V, E>, x: V, reply: Demand)
    requires s.Valid() && s.hasDownstream && reply.Valid()
    ensures ReceiveValueStep(s, x, reply).demand.Valid()
    ensures s.demand.Max? && s.demand.count > 0 && reply == Zero ==> ReceiveValueStep(s, x, reply).demand == Max(s.demand.count - 1)
    ensures s.demand.Unlimited? || reply.Unlimited? ==> ReceiveValueStep(s, x, reply).demand == Unlimited
    ensures ReceiveValueStep(s, x, reply).received == s.received + [Value(x)]
  {
  }

  /** Once cancelled or completed, a subscription receives nothing more
      from the subject. */
  lemma DetachedReceivesNothing<V, E>(s: LeadingState<V, E>, x: V, reply: Demand, c: Completion<E>)
    requires !s.attached && !s.hasDownstream
    ensures SendStep(s, x, reply) == s
    ensures ReceiveCompletionStep(s, c).received == s.received
  {
  }
}
