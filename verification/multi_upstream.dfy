/** `Channel.MultiUpstream`: the fan-in hub behind combine-latest and zip.
    N upstreams subscribe into N slots; the downstream gets one derived
    subscription once every slot is filled, and the slot values are
    combined by `buildCombineLatest` or `buildZip`. */
module MultiUpstream {
  import opened Wrappers
  import opened Demands
  import opened Completions
  import opened Signals

  /** Every slot holds a subscription. */
  predicate AllFilled(slots: seq<Option<SubId>>) {
    forall i :: 0 <= i < |slots| ==> slots[i].Some?
  }

  /** `compactMap { $0 }`: the subscriptions held, in slot order. */
  function Compact(slots: seq<Option<SubId>>): (subs: seq<SubId>)
    ensures |subs| <= |slots|
    ensures AllFilled(slots) ==> |subs| == |slots| && forall i :: 0 <= i < |slots| ==> subs[i] == slots[i].value
  {
    if slots == [] then []
    else Compact(slots[..|slots| - 1]) + (if slots[|slots| - 1].Some? then [slots[|slots| - 1].value] else [])
  }

  /** What `receiveSingle(subscription:at:)` does to the slot array, as
      written: the slot read traps once the array has been emptied. */
  datatype SubscribeStep =
    | Trap
    | Ignore
    | Store(slots: seq<Option<SubId>>)
    | Derive(subscriptions: seq<SubId>)

  function AsWrittenSubscribe(slots: seq<Option<SubId>>, index: nat, s: SubId): (r: SubscribeStep)
    ensures r.Trap? <==> index >= |slots|
    ensures r.Ignore? <==> index < |slots| && slots[index].Some?
    ensures r.Store? ==> r.slots == slots[index := Some(s)] && !AllFilled(r.slots)
    ensures r.Derive? ==> |r.subscriptions| == |slots| && r.subscriptions[index] == s
  {
    if index >= |slots| then Trap
    else if slots[index].Some? then Ignore
    else if !AllFilled(slots[index := Some(s)]) then Store(slots[index := Some(s)])
    else Derive(Compact(slots[index := Some(s)]))
  }

  /** With one slot, the first subscription fills it and derives; the
      slot array is then emptied (`removeAll`), so a repeated subscription
      at index 0 reads past the end instead of being ignored. */
  lemma RepeatedSubscriptionTraps(a: SubId, b: SubId)
    ensures AsWrittenSubscribe([None], 0, a) == Derive([a])
    ensures AsWrittenSubscribe([], 0, b) == Trap
  {
    assert [None][0 := Some(a)] == [Some(a)];
    assert [Some(a)][..0] == [];
  }

  /** The subscription handed to the downstream: it forwards each request
      and cancel to every upstream subscription, in slot order. */
  class DerivedSubscription {
    const id: SubId
    const subscriptions: seq<SubId>
    /** The calls it made on the upstream subscriptions. */
    var calls: seq<UpCall>

    constructor (id: SubId, subscriptions: seq<SubId>)
      ensures this.id == id && this.subscriptions == subscriptions && calls == []
    {
      this.id := id;
      this.subscriptions := subscriptions;
      calls := [];
    }

    method Request(d: Demand)
      modifies this
      ensures calls == old(calls) + RequestAll(subscriptions, d)
    {
      var i := 0;
      while i < |subscriptions|
        invariant 0 <= i <= |subscriptions|
        invariant calls == old(calls) + RequestAll(subscriptions[..i], d)
      {
        assert subscriptions[..i + 1][..i] == subscriptions[..i];
        calls := calls + [RequestCall(subscriptions[i], d)];
        i := i + 1;
      }
      assert subscriptions[..i] == subscriptions;
    }

    method Cancel()
      modifies this
      ensures calls == old(calls) + CancelAll(subscriptions)
    {
      var i := 0;
      while i < |subscriptions|
        invariant 0 <= i <= |subscriptions|
        invariant calls == old(calls) + CancelAll(subscriptions[..i])
      {
        assert subscriptions[..i + 1][..i] == subscriptions[..i];
        calls := calls + [CancelCall(subscriptions[i])];
        i := i + 1;
      }
      assert subscriptions[..i] == subscriptions;
    }
  }

  /** The part of `MultiUpstream` shared by both builders: the slot array
      of upstream subscriptions and the downstream's trace. */
  class Hub<O, E> {
    const count: nat
    var upstreamSubscriptions: seq<Option<SubId>>
    /** The downstream has been handed the derived subscription. */
    ghost var subscribed: bool
    var sent: seq<Signal<O, E>>

    /** Until every slot is filled the array keeps its `count` slots, and
        the downstream has no subscription; afterwards the array is empty
        and the downstream got exactly one. */
    ghost predicate Valid()
      reads this
    {
      |upstreamSubscriptions| == (if subscribed then 0 else count) &&
      (!subscribed && count > 0 ==> !AllFilled(upstreamSubscriptions)) &&
      SubscribeCount(sent) == (if subscribed then 1 else 0)
    }

    constructor (count: nat)
      ensures Valid() && this.count == count && !subscribed && sent == []
      ensures upstreamSubscriptions == seq(count, _ => None)
    {
      this.count := count;
      upstreamSubscriptions := seq(count, _ => None);
      subscribed := false;
      sent := [];
      new;
      if count > 0 {
        assert upstreamSubscriptions[0].None?;
      }
    }

    /** `receiveSingle(subscription:at:)`, with the slot read guarded by
        the array's length: a subscription at a filled slot, or after the
        derived subscription went out and the array was emptied, is
        ignored. The one that fills the last slot makes the
        downstream receive a new derived subscription over all slots. */
    method ReceiveSingleSubscription(s: SubId, index: nat, derivedId: SubId) returns (derived: DerivedSubscription?)
      requires Valid() && index < count
      modifies this`upstreamSubscriptions, this`subscribed, this`sent
      ensures Valid()
      ensures old(subscribed) || old(upstreamSubscriptions)[index].Some? ==>
                derived == null && upstreamSubscriptions == old(upstreamSubscriptions) &&
                subscribed == old(subscribed) && sent == old(sent)
      ensures !old(subscribed) && old(upstreamSubscriptions)[index].None? && !AllFilled(old(upstreamSubscriptions)[index := Some(s)]) ==>
                derived == null && upstreamSubscriptions == old(upstreamSubscriptions)[index := Some(s)] &&
                !subscribed && sent == old(sent)
      ensures !old(subscribed) && old(upstreamSubscriptions)[index].None? && AllFilled(old(upstreamSubscriptions)[index := Some(s)]) ==>
                derived != null && fresh(derived) && derived.id == derivedId &&
                derived.subscriptions == Compact(old(upstreamSubscriptions)[index := Some(s)]) && derived.calls == [] &&
                upstreamSubscriptions == [] && subscribed && sent == old(sent) + [Subscribe(derivedId)]
    {
      if index >= |upstreamSubscriptions| || upstreamSubscriptions[index].Some? {
        return null;
      }
      upstreamSubscriptions := upstreamSubscriptions[index := Some(s)];
      if !AllFilled(upstreamSubscriptions) {
        return null;
      }
      derived := new DerivedSubscription(derivedId, Compact(upstreamSubscriptions));
      SubscribeCountSnoc(sent, Subscribe(derivedId));
      sent := sent + [Subscribe(derivedId)];
      upstreamSubscriptions := [];
      subscribed := true;
    }

    /** `receiveSingle(completion:at:)` forwards every completion, from
        every slot, unguarded. */
    method ReceiveSingleCompletion(c: Completion<E>, index: nat)
      requires Valid() && index < count
      modifies this`sent
      ensures Valid() && sent == old(sent) + [Completed(c)]
    {
      SubscribeCountSnoc(sent, Completed(c));
      sent := sent + [Completed(c)];
    }

    /** Passes a combined value to the downstream; its answer is dropped. */
    method Emit(o: O)
      requires Valid()
      modifies this`sent
      ensures Valid() && sent == old(sent) + [Value(o)]
      ensures Values(sent) == Values(old(sent)) + [o]
    {
      SubscribeCountSnoc(sent, Value(o));
      ValuesAppendValue(sent, o);
      sent := sent + [Value(o)];
    }
  }

  /** A slot completing twice makes the downstream receive two
      completions: the hub does not keep the subscriber contract. */
  lemma CompletionsNotGuarded<O, E>(t: seq<Signal<O, E>>, c1: Completion<E>, c2: Completion<E>)
    ensures !Disciplined(t + [Completed(c1)] + [Completed(c2)])
  {
    var u := t + [Completed(c1)] + [Completed(c2)];
    assert u[|t|].Completed? && |t| != |u| - 1;
  }

  // ---------------------------------------------------------------- combine latest

  /** The latest value that arrived at slot `i`, if any. */
  function LastAt<V>(arrived: seq<(nat, V)>, i: nat): (r: Option<V>)
    ensures r.None? <==> forall k :: 0 <= k < |arrived| ==> arrived[k].0 != i
  {
    if arrived == [] then None
    else if arrived[|arrived| - 1].0 == i then Some(arrived[|arrived| - 1].1)
    else LastAt(arrived[..|arrived| - 1], i)
  }

  /** Every one of the `count` slots has received a value. */
  predicate Full<V>(arrived: seq<(nat, V)>, count: nat) {
    forall i :: 0 <= i < count ==> LastAt(arrived, i).Some?
  }

  /** The latest value of each slot, once all are present. */
  function Latest<V>(arrived: seq<(nat, V)>, count: nat): (vs: seq<V>)
    requires Full(arrived, count)
    ensures |vs| == count && forall i :: 0 <= i < count ==> LastAt(arrived, i) == Some(vs[i])
  {
    seq(count, i requires 0 <= i < count && Full(arrived, count) => LastAt(arrived, i).value)
  }

  /** The values combine-latest publishes for the arrivals `arrived`: after
      each arrival that leaves every slot filled, the transform of the
      latest values. */
  function Combined<V, O>(transform: seq<V> -> O, count: nat, arrived: seq<(nat, V)>): seq<O>
  {
    if arrived == [] then []
    else Combined(transform, count, arrived[..|arrived| - 1]) +
         (if Full(arrived, count) then [transform(Latest(arrived, count))] else [])
  }

  lemma CombinedSnoc<V, O>(transform: seq<V> -> O, count: nat, arrived: seq<(nat, V)>, a: (nat, V))
    ensures Combined(transform, count, arrived + [a]) ==
              Combined(transform, count, arrived) +
              (if Full(arrived + [a], count) then [transform(Latest(arrived + [a], count))] else [])
  {
    assert (arrived + [a])[..|arrived|] == arrived;
  }

  /** Once every slot has a value, each further arrival publishes exactly
      one value, and it carries the value that just arrived in its slot. */
  lemma {:induction false} CombinedOnceFull<V, O>(transform: seq<V> -> O, count: nat, arrived: seq<(nat, V)>, more: seq<(nat, V)>)
    requires Full(arrived, count)
    ensures |Combined(transform, count, arrived + more)| == |Combined(transform, count, arrived)| + |more|
    ensures Full(arrived + more, count)
    ensures more != [] ==>
              Combined(transform, count, arrived + more)[|Combined(transform, count, arrived + more)| - 1] ==
              transform(Latest(arrived + more, count))
    ensures more != [] && more[|more| - 1].0 < count ==>
              Latest(arrived + more, count)[more[|more| - 1].0] == more[|more| - 1].1
  {
    if more == [] {
      assert arrived + more == arrived;
    } else {
      var front := more[..|more| - 1];
      var a := more[|more| - 1];
      var whole := arrived + more;
      assert whole == (arrived + front) + [a];
      assert whole[..|whole| - 1] == arrived + front;
      CombinedOnceFull(transform, count, arrived, front);
      forall i | 0 <= i < count
        ensures LastAt(whole, i).Some?
      {
        assert LastAt(arrived + front, i).Some?;
      }
      CombinedSnoc(transform, count, arrived + front, a);
      assert LastAt(whole, a.0) == Some(a.1);
    }
  }

  /** Every slot holds a value. */
  predicate Present<V>(slots: seq<Option<V>>) {
    forall i :: 0 <= i < |slots| ==> slots[i].Some?
  }

  /** `map { $0! }` over slots that all hold a value. */
  function Unwrapped<V>(slots: seq<Option<V>>): (vs: seq<V>)
    requires Present(slots)
    ensures |vs| == |slots| && forall i :: 0 <= i < |slots| ==> slots[i] == Some(vs[i])
  {
    seq(|slots|, i requires 0 <= i < |slots| && Present(slots) => slots[i].value)
  }

  /** `buildCombineLatest`: each value overwrites its slot; once no slot is
      empty, the transform of all slots is published. */
  class CombineLatest<V, O, E> {
    const hub: Hub<O, E>
    const transform: seq<V> -> O
    var inputs: seq<Option<V>>
    /** Every value received so far, with its slot. */
    ghost var arrived: seq<(nat, V)>

    /** Each slot holds its latest arrival, and the published values are
        the combinations of the arrivals so far. */
    ghost predicate Valid()
      reads this, hub
    {
      hub.Valid() &&
      |inputs| == hub.count &&
      (forall i :: 0 <= i < hub.count ==> inputs[i] == LastAt(arrived, i)) &&
      Values(hub.sent) == Combined(transform, hub.count, arrived)
    }

    constructor (count: nat, transform: seq<V> -> O)
      ensures Valid() && fresh(hub) && hub.count == count && hub.sent == []
      ensures this.transform == transform && inputs == seq(count, _ => None) && arrived == []
    {
      hub := new Hub(count);
      this.transform := transform;
      inputs := seq(count, _ => None);
      arrived := [];
    }

    /** `receiveSingle(_:at:)` with the combine-latest closure: the slot is
        overwritten and, when every slot is present, the transform of the
        slots is published. It always returns `none`. */
    method ReceiveValue(x: V, index: nat) returns (d: Demand)
      requires Valid() && index < hub.count
      modifies this, hub`sent
      ensures Valid() && d == Zero
      ensures arrived == old(arrived) + [(index, x)] && inputs == old(inputs)[index := Some(x)]
      ensures Present(inputs) ==> hub.sent == old(hub.sent) + [Value(transform(Unwrapped(inputs)))]
      ensures !Present(inputs) ==> hub.sent == old(hub.sent)
    {
      inputs := inputs[index := Some(x)];
      arrived := arrived + [(index, x)];
      CombinedSnoc(transform, hub.count, old(arrived), (index, x));
      forall i | 0 <= i < hub.count
        ensures inputs[i] == LastAt(arrived, i)
      {
        assert arrived[..|arrived| - 1] == old(arrived);
      }
      if Present(inputs) {
        var vs := Unwrapped(inputs);
        assert Full(arrived, hub.count);
        assert vs == Latest(arrived, hub.count);
        hub.Emit(transform(vs));
      } else {
        assert !Full(arrived, hub.count);
      }
      d := Zero;
    }
  }

  // ---------------------------------------------------------------- zip

  /** The first `n` values of each queue, zipped column by column and
      transformed. */
  function Zipped<V, O>(transform: seq<V> -> O, queues: seq<seq<V>>, n: nat): (os: seq<O>)
    requires forall i :: 0 <= i < |queues| ==> n <= |queues[i]|
    ensures |os| == n
  {
    if n == 0 then []
    else Zipped(transform, queues, n - 1) + [transform(Column(queues, n - 1))]
  }

  /** The `k`-th value of every queue. */
  function Column<V>(queues: seq<seq<V>>, k: nat): (col: seq<V>)
    requires forall i :: 0 <= i < |queues| ==> k < |queues[i]|
    ensures |col| == |queues| && forall i :: 0 <= i < |queues| ==> col[i] == queues[i][k]
  {
    seq(|queues|, i requires 0 <= i < |queues| && forall j :: 0 <= j < |queues| ==> k < |queues[j]| => queues[i][k])
  }

  /** Zipping looks only at the first `n` values of each queue. */
  lemma {:induction false} ZippedPrefix<V, O>(transform: seq<V> -> O, queues: seq<seq<V>>, other: seq<seq<V>>, n: nat)
    requires |queues| == |other|
    requires forall i :: 0 <= i < |queues| ==> n <= |queues[i]| && n <= |other[i]| && queues[i][..n] == other[i][..n]
    ensures Zipped(transform, queues, n) == Zipped(transform, other, n)
  {
    if n > 0 {
      forall i | 0 <= i < |queues|
        ensures queues[i][..n - 1] == other[i][..n - 1] && queues[i][n - 1] == other[i][n - 1]
      {
        assert queues[i][..n - 1] == queues[i][..n][..n - 1];
        assert other[i][..n - 1] == other[i][..n][..n - 1];
        assert queues[i][n - 1] == queues[i][..n][n - 1];
        assert other[i][n - 1] == other[i][..n][n - 1];
      }
      ZippedPrefix(transform, queues, other, n - 1);
      assert Column(queues, n - 1) == Column(other, n - 1);
    }
  }

  /** No queue is empty. */
  predicate NoneEmpty<V>(queues: seq<seq<V>>) {
    forall i :: 0 <= i < |queues| ==> queues[i] != []
  }

  /** `outputs[index].append(value)`. */
  function Enqueue<V>(queues: seq<seq<V>>, index: nat, x: V): (qs: seq<seq<V>>)
    requires index < |queues|
    ensures |qs| == |queues| && qs[index] == queues[index] + [x]
    ensures forall i :: 0 <= i < |queues| && i != index ==> qs[i] == queues[i]
  {
    queues[index := queues[index] + [x]]
  }

  /** `buildZip`: each value joins its slot's queue; once no queue is
      empty, the head of every queue is taken and their transform
      published. */
  class Zip<V, O, E> {
    const hub: Hub<O, E>
    const transform: seq<V> -> O
    var inputs: seq<seq<V>>
    /** Every value each slot has received, in order. */
    ghost var arrived: seq<seq<V>>
    /** How many tuples have been published. */
    ghost var emitted: nat

    /** Each queue holds its slot's arrivals past the `emitted` published
        tuples, and the published values are the zip of the first
        `emitted` arrivals of each slot. */
    ghost predicate Tracks()
      reads this, hub
    {
      |inputs| == hub.count && |arrived| == hub.count &&
      (forall i :: 0 <= i < hub.count ==> emitted <= |arrived[i]| && inputs[i] == arrived[i][emitted..]) &&
      Values(hub.sent) == Zipped(transform, arrived, emitted)
    }

    /** Between calls, some queue is empty: as many tuples went out as
        the slot with the fewest arrivals allows. */
    ghost predicate Valid()
      reads this, hub
    {
      hub.Valid() && Tracks() &&
      (hub.count > 0 ==> !NoneEmpty(inputs))
    }

    constructor (count: nat, transform: seq<V> -> O)
      ensures Valid() && fresh(hub) && hub.count == count && hub.sent == []
      ensures this.transform == transform && inputs == seq(count, _ => []) && emitted == 0
    {
      hub := new Hub(count);
      this.transform := transform;
      inputs := seq(count, _ => []);
      arrived := seq(count, _ => []);
      emitted := 0;
      new;
      if count > 0 {
        assert inputs[0] == [];
      }
    }

    /** Appends the value to its slot's queue. */
    method Store(x: V, index: nat)
      requires Tracks() && index < hub.count
      modifies this`inputs, this`arrived
      ensures Tracks()
      ensures inputs == Enqueue(old(inputs), index, x) && arrived == Enqueue(old(arrived), index, x)
    {
      var before := arrived;
      inputs := Enqueue(inputs, index, x);
      arrived := Enqueue(arrived, index, x);
      forall i | 0 <= i < hub.count
        ensures emitted <= |arrived[i]| && inputs[i] == arrived[i][emitted..]
        ensures arrived[i][..emitted] == before[i][..emitted]
      {
        if i == index {
          assert arrived[i] == before[i] + [x];
        }
      }
      ZippedPrefix(transform, arrived, before, emitted);
    }

    /** Takes the head of every queue (`removeFirst` in a loop over the
        slots) and publishes their transform. */
    method Pop()
      requires hub.Valid() && Tracks() && NoneEmpty(inputs)
      modifies this`inputs, this`emitted, hub`sent
      ensures hub.Valid() && Tracks() && emitted == old(emitted) + 1
      ensures |inputs| == |old(inputs)| && forall i :: 0 <= i < |inputs| ==> inputs[i] == old(inputs)[i][1..]
      ensures hub.sent == old(hub.sent) + [Value(transform(Column(old(inputs), 0)))]
    {
      var queued := inputs;
      var heads := [];
      for j := 0 to |inputs|
        invariant |inputs| == |queued| && |heads| == j
        invariant forall i :: 0 <= i < j ==> heads[i] == queued[i][0] && inputs[i] == queued[i][1..]
        invariant forall i :: j <= i < |inputs| ==> inputs[i] == queued[i]
        invariant emitted == old(emitted) && hub.sent == old(hub.sent)
      {
        heads := heads + [inputs[j][0]];
        inputs := inputs[j := inputs[j][1..]];
      }
      forall i | 0 <= i < hub.count
        ensures emitted < |arrived[i]| && queued[i][0] == arrived[i][emitted]
      {
        assert queued[i] == arrived[i][emitted..] && queued[i] != [];
      }
      assert heads == Column(queued, 0) == Column(arrived, emitted);
      emitted := emitted + 1;
      forall i | 0 <= i < hub.count
        ensures inputs[i] == arrived[i][emitted..]
      {
        assert queued[i][1..] == arrived[i][emitted - 1..][1..];
      }
      hub.Emit(transform(heads));
    }

    /** `receiveSingle(_:at:)` with the zip closure. It always returns
        `none`. */
    method ReceiveValue(x: V, index: nat) returns (d: Demand)
      requires Valid() && index < hub.count
      modifies this, hub`sent
      ensures Valid() && d == Zero
      ensures arrived == Enqueue(old(arrived), index, x)
      ensures NoneEmpty(Enqueue(old(inputs), index, x)) ==>
                emitted == old(emitted) + 1 &&
                (forall i :: 0 <= i < |inputs| ==> inputs[i] == Enqueue(old(inputs), index, x)[i][1..]) &&
                hub.sent == old(hub.sent) + [Value(transform(Column(Enqueue(old(inputs), index, x), 0)))]
      ensures !NoneEmpty(Enqueue(old(inputs), index, x)) ==>
                emitted == old(emitted) && inputs == Enqueue(old(inputs), index, x) && hub.sent == old(hub.sent)
    {
      ghost var queued := Enqueue(inputs, index, x);
      ghost var k :| 0 <= k < hub.count && inputs[k] == [];
      Store(x, index);
      if NoneEmpty(inputs) {
        assert k == index && queued[k] == [x];
        Pop();
        assert inputs[k] == queued[k][1..] == [];
      }
      d := Zero;
    }
  }
}
