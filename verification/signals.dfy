/** What travels along one publisher-to-subscriber edge. A component's
    effects on its neighbours are recorded as traces of these: the signals
    its downstream received, and the calls it made on upstream
    subscriptions. */
module Signals {
  import opened Demands
  import opened Completions

  /** The identity (`combineIdentifier`) of a subscription object. */
  type SubId = nat

  /** The identity of the shared empty subscription (`_Subscriptions.empty`). */
  const EmptySubscription: SubId := 0

  /** One call made on a subscriber: `receive(subscription:)`,
      `receive(_:)` or `receive(completion:)`. */
  datatype Signal<+V, +E> =
    | Subscribe(subscription: SubId)
    | Value(value: V)
    | Completed(completion: Completion<E>)

  /** One call made on a subscription: `request(_:)` or `cancel()`. */
  datatype UpCall = RequestCall(target: SubId, demand: Demand) | CancelCall(target: SubId)

  /** `request(d)` made on each of `subs`, in order. */
  function RequestAll(subs: seq<SubId>, d: Demand): (calls: seq<UpCall>)
    ensures |calls| == |subs|
    ensures forall i :: 0 <= i < |subs| ==> calls[i] == RequestCall(subs[i], d)
  {
    if subs == [] then [] else RequestAll(subs[..|subs| - 1], d) + [RequestCall(subs[|subs| - 1], d)]
  }

  /** `cancel()` made on each of `subs`, in order. */
  function CancelAll(subs: seq<SubId>): (calls: seq<UpCall>)
    ensures |calls| == |subs|
    ensures forall i :: 0 <= i < |subs| ==> calls[i] == CancelCall(subs[i])
  {
    if subs == [] then [] else CancelAll(subs[..|subs| - 1]) + [CancelCall(subs[|subs| - 1])]
  }

  /** The values of a trace, in order. */
  function Values<V, E>(t: seq<Signal<V, E>>): (vs: seq<V>)
    ensures |vs| <= |t|
  {
    if t == [] then []
    else Values(t[..|t| - 1]) + (if t[|t| - 1].Value? then [t[|t| - 1].value] else [])
  }

  /** How many completions a trace holds. */
  function CompletionCount<V, E>(t: seq<Signal<V, E>>): (n: nat)
    ensures n <= |t|
  {
    if t == [] then 0
    else CompletionCount(t[..|t| - 1]) + (if t[|t| - 1].Completed? then 1 else 0)
  }

  /** How many subscriptions a trace hands its subscriber. */
  function SubscribeCount<V, E>(t: seq<Signal<V, E>>): (n: nat)
    ensures n <= |t|
  {
    if t == [] then 0
    else SubscribeCount(t[..|t| - 1]) + (if t[|t| - 1].Subscribe? then 1 else 0)
  }

  lemma SubscribeCountSnoc<V, E>(t: seq<Signal<V, E>>, sig: Signal<V, E>)
    ensures SubscribeCount(t + [sig]) == SubscribeCount(t) + (if sig.Subscribe? then 1 else 0)
  {
    assert (t + [sig])[..|t|] == t;
  }

  /** The trace ends with a completion. */
  predicate Terminated<V, E>(t: seq<Signal<V, E>>) {
    |t| > 0 && t[|t| - 1].Completed?
  }

  /** The contract every subscriber relies on: a completion, if any, is the
      last signal it receives. */
  predicate Disciplined<V, E>(t: seq<Signal<V, E>>) {
    forall i :: 0 <= i < |t| && t[i].Completed? ==> i == |t| - 1
  }

  /** The trace of delivering `vs` one value after another. */
  function ValueSignals<V, E>(vs: seq<V>): (t: seq<Signal<V, E>>)
    ensures |t| == |vs|
    ensures forall i :: 0 <= i < |vs| ==> t[i] == Value(vs[i])
  {
    if vs == [] then [] else ValueSignals(vs[..|vs| - 1]) + [Value(vs[|vs| - 1])]
  }

  lemma ValueSignalsSnoc<V, E>(vs: seq<V>, v: V)
    ensures ValueSignals<V, E>(vs + [v]) == ValueSignals<V, E>(vs) + [Value(v)]
  {
    assert (vs + [v])[..|vs|] == vs;
  }

  lemma {:induction false} ValuesOfValueSignals<V, E>(vs: seq<V>)
    ensures Values(ValueSignals<V, E>(vs)) == vs
  {
    if vs != [] {
      var t := ValueSignals<V, E>(vs);
      assert t[..|t| - 1] == ValueSignals<V, E>(vs[..|vs| - 1]);
      ValuesOfValueSignals<V, E>(vs[..|vs| - 1]);
    }
  }

  lemma ValuesOfOne<V, E>(sig: Signal<V, E>)
    ensures Values([sig]) == if sig.Value? then [sig.value] else []
  {
    assert [sig][..0] == [];
  }

  lemma ValuesAppend<V, E>(t: seq<Signal<V, E>>, u: seq<Signal<V, E>>)
    ensures Values(t + u) == Values(t) + Values(u)
  {
    if u != [] {
      assert (t + u)[..|t + u| - 1] == t + u[..|u| - 1];
      ValuesAppend(t, u[..|u| - 1]);
    } else {
      assert t + u == t;
    }
  }

  /** A value adds itself to a trace's values. */
  lemma ValuesAppendValue<V, E>(t: seq<Signal<V, E>>, v: V)
    ensures Values(t + [Value(v)]) == Values(t) + [v]
  {
    ValuesAppend(t, [Value(v)]);
    ValuesOfOne<V, E>(Value(v));
  }

  /** A completion adds no value to a trace. */
  lemma ValuesAppendCompletion<V, E>(t: seq<Signal<V, E>>, c: Completion<E>)
    ensures Values(t + [Completed(c)]) == Values(t)
  {
    ValuesAppend(t, [Completed(c)]);
    ValuesOfOne<V, E>(Completed(c));
    assert Values(t) + [] == Values(t);
  }

  /** Delivering `vs` adds exactly `vs` to a trace's values. */
  lemma ValuesAppendValueSignals<V, E>(t: seq<Signal<V, E>>, vs: seq<V>)
    ensures Values(t + ValueSignals(vs)) == Values(t) + vs
  {
    ValuesAppend(t, ValueSignals(vs));
    ValuesOfValueSignals<V, E>(vs);
  }

  /** A disciplined trace holds at most one completion, and holds one
      exactly when it is terminated. */
  lemma {:induction false} DisciplinedCompletesOnce<V, E>(t: seq<Signal<V, E>>)
    requires Disciplined(t)
    ensures CompletionCount(t) == if Terminated(t) then 1 else 0
  {
    if t != [] {
      var u := t[..|t| - 1];
      assert forall i :: 0 <= i < |u| ==> u[i] == t[i];
      DisciplinedCompletesOnce(u);
    }
  }

  /** Appending to a trace that has not completed keeps it disciplined. */
  lemma DisciplinedAppend<V, E>(t: seq<Signal<V, E>>, sig: Signal<V, E>)
    requires Disciplined(t) && !Terminated(t)
    ensures Disciplined(t + [sig])
  {
    assert forall i :: 0 <= i < |t| ==> (t + [sig])[i] == t[i];
  }
}
