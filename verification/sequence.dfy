/** `_Publishers.Sequence`: publishes the elements of a sequence on demand,
    then finishes. */
module SequencePublisher {
  import opened Demands
  import opened Completions
  import opened Signals

  /** What one `request` does, from demand `demand` with `left` elements
      still in the iterator, the downstream answering `reply(k)` to the
      k-th value of this request: the final demand, how many values went
      out, and whether the iterator ran dry (sending finished). */
  function Drain(demand: Demand, left: nat, reply: nat -> Demand, k: nat): (r: (Demand, nat, bool))
    ensures r.1 <= left
    ensures r.2 ==> r.1 == left
    decreases left
  {
    if !Greater(demand, Zero) then (demand, 0, false)
    else if left == 0 then (demand, 0, true)
    else
      var rest := Drain(Plus(Minus(demand, Max(1)), reply(k)), left - 1, reply, k + 1);
      (rest.0, rest.1 + 1, rest.2)
  }

  /** With unlimited demand every element goes out and the sequence
      finishes, whatever the downstream answers. */
  lemma {:induction false} UnlimitedDrainsAll(left: nat, reply: nat -> Demand, k: nat)
    ensures Drain(Unlimited, left, reply, k) == (Unlimited, left, true)
  {
    if left > 0 {
      UnlimitedDrainsAll(left - 1, reply, k + 1);
    }
  }

  /** A downstream that answers every value with `.none`. */
  function NoneAnswer(j: nat): Demand {
    Zero
  }

  /** A finite demand of `m` answered with `.none` each time sends
      `min(m, left)` values, is left with the rest of `m`, and finishes
      only when `m` exceeds the elements left. */
  lemma {:induction false} FiniteDrainCounts(m: nat, left: nat, k: nat)
    requires m <= INT_MAX
    ensures Drain(Max(m), left, NoneAnswer, k).0 == Max(if m < left then 0 else m - left)
    ensures Drain(Max(m), left, NoneAnswer, k).1 == if m < left then m else left
    ensures Drain(Max(m), left, NoneAnswer, k).2 <==> m > left
  {
    if m == 0 {
      assert !Greater(Max(0), Zero);
    } else if left == 0 {
      assert Greater(Max(m), Zero);
    } else {
      TakeOne(m);
      assert NoneAnswer(k) == Zero;
      FiniteDrainCounts(m - 1, left - 1, k + 1);
      var rest := Drain(Max(m - 1), left - 1, NoneAnswer, k + 1);
      assert Drain(Max(m), left, NoneAnswer, k) == (rest.0, rest.1 + 1, rest.2);
    }
  }

  /** Sending one value against demand `m` answered with `.none` leaves
      `m - 1`. */
  lemma TakeOne(m: nat)
    requires 0 < m <= INT_MAX
    ensures Greater(Max(m), Zero)
    ensures Plus(Minus(Max(m), Max(1)), Zero) == Max(m - 1)
  {
  }

  /** The trace a subscriber of the sequence sees: the subscription, the
      values sent, and finished once the iterator ran dry. */
  function Trace<V, E>(id: SubId, vs: seq<V>, finished: bool): seq<Signal<V, E>>
  {
    [Subscribe(id)] + ValueSignals(vs) + (if finished then [Completed(Finished)] else [])
  }

  lemma TraceValues<V, E>(id: SubId, vs: seq<V>, finished: bool)
    ensures Values(Trace<V, E>(id, vs, finished)) == vs
  {
    var body: seq<Signal<V, E>> := [Subscribe(id)] + ValueSignals(vs);
    ValuesAppend([Subscribe(id)], ValueSignals<V, E>(vs));
    ValuesOfOne<V, E>(Subscribe(id));
    ValuesOfValueSignals<V, E>(vs);
    assert Values(body) == vs;
    if finished {
      ValuesAppend(body, [Completed(Finished)]);
      ValuesOfOne<V, E>(Completed(Finished));
    } else {
      assert Trace<V, E>(id, vs, finished) == body;
    }
  }

  lemma TraceSnoc<V, E>(id: SubId, vs: seq<V>, v: V)
    ensures Trace<V, E>(id, vs + [v], false) == Trace<V, E>(id, vs, false) + [Value(v)]
  {
    ValueSignalsSnoc<V, E>(vs, v);
  }

  lemma TraceFinish<V, E>(id: SubId, vs: seq<V>)
    ensures Trace<V, E>(id, vs, true) == Trace<V, E>(id, vs, false) + [Completed(Finished)]
  {
  }

  lemma TraceCompletesLast<V, E>(id: SubId, vs: seq<V>, finished: bool)
    ensures Disciplined(Trace<V, E>(id, vs, finished))
    ensures Terminated(Trace<V, E>(id, vs, finished)) <==> finished
  {
    var t := Trace<V, E>(id, vs, finished);
    var u := ValueSignals<V, E>(vs);
    assert |t| == 1 + |vs| + (if finished then 1 else 0);
    assert forall i :: 0 < i <= |vs| ==> t[i] == u[i - 1];
    assert !t[0].Completed?;
  }

  /** That trace keeps the subscriber contract, its values are `vs`, and
      it completes exactly when finished. */
  lemma TraceIsDisciplined<V, E>(id: SubId, vs: seq<V>, finished: bool)
    ensures Disciplined(Trace<V, E>(id, vs, finished))
    ensures Values(Trace<V, E>(id, vs, finished)) == vs
    ensures Terminated(Trace<V, E>(id, vs, finished)) <==> finished
  {
    TraceValues<V, E>(id, vs, finished);
    TraceCompletesLast<V, E>(id, vs, finished);
  }

  /** `_Subscriptions.Leading.Sequence`. */
  class SequenceLeading<V, E> {
    const id: SubId
    ghost const elements: seq<V>
    /** What the iterator has yet to yield. */
    var remaining: seq<V>
    /** `downstream != nil` */
    var attached: bool
    var demand: Demand
    var received: seq<Signal<V, E>>
    ghost var consumed: nat
    ghost var finished: bool

    /** The downstream has seen the first `consumed` elements, then
        finished if the iterator ran dry, which also detached it. */
    ghost predicate Valid()
      reads this
    {
      consumed <= |elements| && remaining == elements[consumed..] && demand.Valid() &&
      (finished ==> !attached && consumed == |elements|) &&
      received == Trace(id, elements[..consumed], finished)
    }

    /** `receive(subscriber:)` makes the subscription and hands it over. */
    constructor (id: SubId, elements: seq<V>)
      ensures Valid() && this.id == id && this.elements == elements && attached && demand == Zero
      ensures received == [Subscribe(id)] && consumed == 0 && !finished
    {
      this.id := id;
      this.elements := elements;
      remaining := elements;
      attached := true;
      demand := Zero;
      received := [Subscribe(id)];
      consumed := 0;
      finished := false;
      new;
      assert elements[..0] == [];
    }

    /** `cancel()`: detaches the downstream. */
    method Cancel()
      requires Valid()
      modifies this`attached
      ensures Valid() && !attached
    {
      attached := false;
    }

    /** One turn of the `request` loop that finds an element: it goes out,
        and the demand becomes demand - 1 + the downstream's answer. */
    method SendNext(answer: Demand)
      requires Valid() && attached && answer.Valid() && remaining != []
      modifies this`remaining, this`demand, this`received, this`consumed
      ensures Valid()
      ensures remaining == old(remaining)[1..] && consumed == old(consumed) + 1 &&
              demand == Plus(Minus(old(demand), Max(1)), answer) &&
              received == old(received) + [Value(old(remaining)[0])]
    {
      var x := remaining[0];
      ghost var vs := elements[..consumed];
      assert elements[..consumed + 1] == vs + [x];
      assert remaining[1..] == elements[consumed + 1..];
      TraceSnoc<V, E>(id, vs, x);
      remaining := remaining[1..];
      demand := Minus(demand, Max(1));
      received := received + [Value(x)];
      demand := Plus(demand, answer);
      consumed := consumed + 1;
    }

    /** The turn of the `request` loop that finds the iterator dry: the
        downstream is detached and finished. */
    method Finish()
      requires Valid() && attached && remaining == []
      modifies this`attached, this`received, this`finished
      ensures Valid()
      ensures !attached && finished && received == old(received) + [Completed(Finished)]
    {
      TraceFinish<V, E>(id, elements[..consumed]);
      attached := false;
      received := received + [Completed(Finished)];
      finished := true;
    }

    /** One turn of the `request` loop, taken while attached with demand
        above 0: `start`, what the whole request drains, is still the
        values sent so far plus what the rest of the loop drains. */
    method Turn(reply: nat -> Demand, k: nat, ghost start: (Demand, nat, bool)) returns (next: nat)
      requires Valid() && attached && Greater(demand, Zero) && reply(k).Valid()
      requires start == Shifted(Drain(demand, |remaining|, reply, k), k)
      modifies this`remaining, this`attached, this`demand, this`received, this`consumed, this`finished
      ensures Valid() && consumed == old(consumed) + (next - k)
      ensures attached ==> next == k + 1 && |remaining| < old(|remaining|) && start == Shifted(Drain(demand, |remaining|, reply, next), next)
      ensures !attached ==> next == k && start == (demand, k, finished)
    {
      DrainTurn(demand, |remaining|, reply, k, start);
      if remaining != [] {
        SendNext(reply(k));
        next := k + 1;
      } else {
        Finish();
        next := k;
      }
    }

    /** `request(_:)`: adds to the demand, then, while attached with
        demand above 0, sends the next element or finishes; the downstream answers
        `reply(k)` to the k-th value of this request. */
    method Request(d: Demand, reply: nat -> Demand)
      requires Valid() && d.Valid() && forall j :: reply(j).Valid()
      modifies this`remaining, this`attached, this`demand, this`received, this`consumed, this`finished
      ensures Valid() && consumed >= old(consumed)
      ensures !old(attached) ==>
                demand == Plus(old(demand), d) && remaining == old(remaining) && received == old(received) && !attached
      ensures old(attached) ==>
                (demand, consumed - old(consumed), finished) == Drain(Plus(old(demand), d), |old(remaining)|, reply, 0)
      ensures !attached || demand == Zero
    {
      demand := Plus(demand, d);
      if !attached {
        return;
      }
      ghost var start := Drain(demand, |remaining|, reply, 0);
      var k := 0;
      while attached && Greater(demand, Zero)
        invariant Valid() && consumed == old(consumed) + k
        invariant attached ==> start == Shifted(Drain(demand, |remaining|, reply, k), k)
        invariant !attached ==> start == (demand, k, finished)
        decreases |remaining| + (if attached then 1 else 0)
      {
        k := Turn(reply, k, start);
      }
      PositiveDemand(demand);
    }
  }

  /** One turn of `Drain`. */
  lemma DrainStep(demand: Demand, left: nat, reply: nat -> Demand, k: nat)
    requires Greater(demand, Zero)
    ensures Drain(demand, left, reply, k) ==
              if left == 0 then (demand, 0, true)
              else Shifted(Drain(Plus(Minus(demand, Max(1)), reply(k)), left - 1, reply, k + 1), 1)
  {
  }

  /** What a loop turn does to the outcome of the whole request, `start`:
      it is the values sent so far plus what the rest of the loop drains. */
  lemma DrainTurn(demand: Demand, left: nat, reply: nat -> Demand, k: nat, start: (Demand, nat, bool))
    requires Greater(demand, Zero) && start == Shifted(Drain(demand, left, reply, k), k)
    ensures left == 0 ==> start == (demand, k, true)
    ensures left > 0 ==> start == Shifted(Drain(Plus(Minus(demand, Max(1)), reply(k)), left - 1, reply, k + 1), k + 1)
  {
    DrainStep(demand, left, reply, k);
  }

  /** A `Drain` result with `k` values already sent. */
  function Shifted(r: (Demand, nat, bool), k: nat): (Demand, nat, bool) {
    (r.0, r.1 + k, r.2)
  }

  /** What `count()` publishes: the collection's length once, then
      finished. The `_Just` form (no failure type) sends both right after
      the subscription; the `_Result` form sends them on the first
      request, whatever its demand, so before that request the subscriber
      holds only the subscription. */
  function CountTrace<V, E>(id: SubId, elements: seq<V>, delivered: bool): (t: seq<Signal<int, E>>)
    ensures Disciplined(t) && (Terminated(t) <==> delivered)
    ensures Values(t) == if delivered then [|elements|] else []
  {
    TraceIsDisciplined<int, E>(id, if delivered then [|elements|] else [], delivered);
    Trace(id, if delivered then [|elements|] else [], delivered)
  }

  /** The number `count()` publishes is how many values the sequence
      itself sends before finishing under unlimited demand. */
  lemma {:induction false} CountIsDrainedLength<V, E>(id: SubId, elements: seq<V>, reply: nat -> Demand)
    ensures Drain(Unlimited, |elements|, reply, 0).2
    ensures Values(CountTrace<V, E>(id, elements, true)) == [Drain(Unlimited, |elements|, reply, 0).1]
  {
    UnlimitedDrainsAll(|elements|, reply, 0);
  }

  /** `prepend(_:)`: the given elements come first. */
  function Prepend<V>(elements: seq<V>, before: seq<V>): (r: seq<V>)
    ensures |r| == |before| + |elements| && r[..|before|] == before && r[|before|..] == elements
  {
    before + elements
  }

  /** `append(_:)`: the given elements come last. */
  function Append<V>(elements: seq<V>, after: seq<V>): (r: seq<V>)
    ensures |r| == |elements| + |after| && r[..|elements|] == elements && r[|elements|..] == after
  {
    elements + after
  }

  /** A sequence built by `prepend` and `append` publishes, under
      unlimited demand, exactly the prepended elements, its own and the
      appended ones, in that order, and then finishes. */
  lemma {:induction false} PrependAppendPublishes<V, E>(id: SubId, elements: seq<V>, before: seq<V>, after: seq<V>, reply: nat -> Demand)
    ensures var s := Prepend(Append(elements, after), before);
            var r := Drain(Unlimited, |s|, reply, 0);
            r.2 && |s[..r.1]| == |before| + |elements| + |after| &&
            Values(Trace<V, E>(id, s[..r.1], r.2)) == before + elements + after
  {
    var s := Prepend(Append(elements, after), before);
    UnlimitedDrainsAll(|s|, reply, 0);
    assert s[..|s|] == s == before + elements + after;
    TraceValues<V, E>(id, s, true);
  }
}
