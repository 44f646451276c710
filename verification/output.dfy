/** `output(in:)` and `output(at:)`: an anonymous channel whose value
    closure forwards the inputs whose 0-based index lies in a range,
    counting the index in a captured variable. */
module Output {
  import opened Wrappers
  import opened Demands
  import opened Completions
  import opened Signals
  import opened SubscriptionState
  import opened Channels

  /** A `CountableRange<Int>`: `lower..<upper`. */
  datatype Range = Range(lower: Int, upper: Int) {
    predicate Valid() { lower <= upper }
    predicate Contains(i: int) { lower <= i < upper }
  }

  /** `output(at: index)` uses the range `index...index`, which is
      `index..<index + 1`; the conversion needs `index + 1` to be an
      `Int`. */
  function At(index: Int): (r: Range)
    requires index < INT_MAX
    ensures r.Valid() && forall i :: r.Contains(i) <==> i == index
  {
    Range(index, index + 1)
  }

  function Clamp(i: int, n: nat): (k: nat)
    ensures k <= n
  {
    if i < 0 then 0 else if i > n then n else i
  }

  /** The inputs forwarded for inputs `xs`. */
  function Selected<V>(range: Range, xs: seq<V>): seq<V>
  {
    if xs == [] then []
    else Selected(range, xs[..|xs| - 1]) + (if range.Contains(|xs| - 1) then [xs[|xs| - 1]] else [])
  }

  /** The forwarded inputs are the slice of the inputs the range covers. */
  lemma {:induction false} SelectedIsSlice<V>(range: Range, xs: seq<V>)
    requires range.Valid()
    ensures Selected(range, xs) == xs[Clamp(range.lower, |xs|)..Clamp(range.upper, |xs|)]
  {
    if xs != [] {
      var ys := xs[..|xs| - 1];
      SelectedIsSlice(range, ys);
      var lo, hi := Clamp(range.lower, |ys|), Clamp(range.upper, |ys|);
      if range.Contains(|ys|) {
        assert ys[lo..hi] + [xs[|ys|]] == xs[lo..hi + 1];
      } else {
        assert ys[lo..hi] == xs[Clamp(range.lower, |xs|)..Clamp(range.upper, |xs|)];
      }
    }
  }

  /** An `output` channel; `index` is the captured index variable. */
  class OutputChannel<V, E> {
    const chan: Channel<V, E>
    const range: Range
    var index: int
    /** The inputs the value closure has run on. */
    ghost var inputs: seq<V>

    /** The index counts the inputs, and the downstream has received the
        ones whose index lies in the range. */
    ghost predicate Valid()
      reads this, chan
    {
      chan.Valid() && index == |inputs| && Values(chan.sent) == Selected(range, inputs)
    }

    constructor (id: SubId, range: Range)
      requires range.Valid()
      ensures Valid() && fresh(chan) && chan.id == id && chan.event == Pending && chan.sent == []
      ensures this.range == range && index == 0 && inputs == []
    {
      chan := new Channel(id);
      this.range := range;
      index := 0;
      inputs := [];
    }

    method ReceiveSubscription(s: SubId)
      requires Valid()
      modifies chan
      ensures Valid()
      ensures chan.event == AcceptSubscription(old(chan.event), s).1
      ensures chan.sent == if old(chan.event).Pending? then old(chan.sent) + [Subscribe(chan.id)] else old(chan.sent)
    {
      chan.TransformReceiveSubscription(s);
      ValuesAppend(old(chan.sent), [Subscribe(chan.id)]);
      ValuesOfOne<V, E>(Subscribe(chan.id));
    }

    /** An input at an index in the range is forwarded and the downstream's
        answer returned; any other input returns `.unlimited`. The index
        advances either way. */
    method ReceiveInput(x: V, reply: Demand) returns (d: Demand)
      requires Valid()
      modifies this, chan
      ensures Valid()
      ensures !old(chan.event.IsOpen()) ==> d == Zero && index == old(index) && inputs == old(inputs) && chan.sent == old(chan.sent)
      ensures old(chan.event.IsOpen()) ==> inputs == old(inputs) + [x] && index == old(index) + 1
      ensures old(chan.event.IsOpen()) && range.Contains(old(index)) ==> d == reply && chan.sent == old(chan.sent) + [Value(x)]
      ensures old(chan.event.IsOpen()) && !range.Contains(old(index)) ==> d == Unlimited && chan.sent == old(chan.sent)
    {
      if !chan.IsOpen() {
        return Zero;
      }
      ghost var before := inputs;
      inputs := inputs + [x];
      assert inputs[..|inputs| - 1] == before;
      assert Selected(range, inputs) == Selected(range, before) + (if range.Contains(index) then [x] else []);
      if range.Contains(index) {
        ValuesAppendValue(chan.sent, x);
        chan.Deliver(Value(x));
        d := reply;
      } else {
        assert Selected(range, before) + [] == Selected(range, before);
        d := Unlimited;
      }
      index := index + 1;
    }

    /** The completion is passed on; the channel does not finish on its own
        once the range is exhausted. */
    method ReceiveCompletion(c: Completion<E>)
      requires Valid()
      modifies chan
      ensures Valid()
      ensures chan.sent == if old(chan.event).IsOpen() then old(chan.sent) + [Completed(c)] else old(chan.sent)
    {
      ValuesAppendCompletion(chan.sent, c);
      var _ := chan.AnonymousReceiveCompletion(c);
    }
  }
}
