/** `_Record`: a recording of values and a completion, played back to each
    subscriber. */
module Record {
  import opened Wrappers
  import opened Demands
  import opened Completions
  import opened Signals

  datatype Recording<+V, +E> = Recording(output: seq<V>, completion: Completion<E>)

  /** `Recording()`: ready to receive output. */
  function EmptyRecording<V, E>(): (r: Recording<V, E>)
    ensures r.output == [] && r.completion == Finished
  {
    Recording([], Finished)
  }

  /** `receive(_:)` adds an output at the end. */
  function Receive<V, E>(r: Recording<V, E>, x: V): Recording<V, E>
  {
    r.(output := r.output + [x])
  }

  /** `receive(completion:)` replaces the completion. */
  function ReceiveCompletion<V, E>(r: Recording<V, E>, c: Completion<E>): Recording<V, E>
  {
    r.(completion := c)
  }

  /** As written, neither `receive` checks the other: an output received
      after the completion is still recorded, and a second completion
      replaces the first (the doc comments promise a trap for both). */
  lemma ReceiveAfterCompletion<V, E>(r: Recording<V, E>, c: Completion<E>, x: V, c2: Completion<E>)
    ensures Receive(ReceiveCompletion(r, c), x) == Recording(r.output + [x], c)
    ensures ReceiveCompletion(ReceiveCompletion(r, c), c2) == ReceiveCompletion(r, c2)
    ensures ReceiveCompletion(r, c).output == r.output
  {
  }

  /** Receiving `xs` one at a time. */
  function ReceiveAll<V, E>(r: Recording<V, E>, xs: seq<V>): Recording<V, E>
  {
    if xs == [] then r else Receive(ReceiveAll(r, xs[..|xs| - 1]), xs[|xs| - 1])
  }

  /** A recording made by receiving `xs` and then `c` holds `xs` in the
      order received and `c`. */
  lemma {:induction false} RecordsInOrder<V, E>(xs: seq<V>, c: Completion<E>)
    ensures ReceiveCompletion(ReceiveAll(EmptyRecording<V, E>(), xs), c) == Recording(xs, c)
  {
    ReceivesAppend(EmptyRecording<V, E>(), xs);
  }

  lemma {:induction false} ReceivesAppend<V, E>(r: Recording<V, E>, xs: seq<V>)
    ensures ReceiveAll(r, xs) == Recording(r.output + xs, r.completion)
  {
    if xs != [] {
      ReceivesAppend(r, xs[..|xs| - 1]);
      assert r.output + xs[..|xs| - 1] + [xs[|xs| - 1]] == r.output + xs;
    } else {
      assert r.output + xs == r.output;
    }
  }

  /** One element of an unkeyed coding container. */
  datatype CodedItem<+V, +E> = OutputList(values: seq<V>) | CompletionItem(code: SingleValue<E>)

  /** `encode(to:)`: the output list, then the completion. */
  function EncodeRecording<V, E>(r: Recording<V, E>): (items: seq<CodedItem<V, E>>)
    ensures |items| == 2 && items[0].OutputList? && items[1].CompletionItem?
  {
    [OutputList(r.output), CompletionItem(Encode(r.completion))]
  }

  /** `init(from:)`: reads an output list, then a completion; a container
      that does not hold them in that order fails to decode. */
  function DecodeRecording<V, E>(items: seq<CodedItem<V, E>>): (r: Option<Recording<V, E>>)
    ensures r.Some? <==> |items| >= 2 && items[0].OutputList? && items[1].CompletionItem?
  {
    if |items| >= 2 && items[0].OutputList? && items[1].CompletionItem? then
      Some(Recording(items[0].values, Decode(items[1].code)))
    else None
  }

  /** Decoding reads back what encoding wrote. */
  lemma RecordingRoundTrip<V, E>(r: Recording<V, E>)
    ensures DecodeRecording(EncodeRecording(r)) == Some(r)
  {
    RoundTrip(r.completion);
  }

  /** How many recorded values one `request` plays back: values go out in
      order, the running demand losing the downstream's answer to each,
      until it drops to `.none` or the recording ends. */
  function Played(n: nat, demand: Demand, reply: nat -> Demand, i: nat): (m: nat)
    requires i <= n
    ensures i <= m <= n
    decreases n - i
  {
    if i == n then n
    else if AtMost(Minus(demand, reply(i)), Zero) then i + 1
    else Played(n, Minus(demand, reply(i)), reply, i + 1)
  }

  /** As written, the demand loses the downstream's answer instead of one
      per value: a downstream that answers `.none` every time is sent the
      whole recording, whatever positive demand it asked for. */
  lemma {:induction false} NoneAnswersPlayEverything(n: nat, demand: Demand, reply: nat -> Demand, i: nat)
    requires i <= n && Greater(demand, Zero) && demand.Valid()
    requires forall j :: reply(j) == Zero
    ensures Played(n, demand, reply, i) == n
    decreases n - i
  {
    if i < n {
      assert Minus(demand, reply(i)) == demand;
      NoneAnswersPlayEverything(n, demand, reply, i + 1);
    }
  }

  /** The first value always goes out, even for a request of `.none`. */
  lemma FirstValueAlwaysPlayed(n: nat, demand: Demand, reply: nat -> Demand)
    requires n > 0
    ensures Played(n, demand, reply, 0) >= 1
  {
  }

  /** `_Subscriptions.Leading.Record`: the downstream is held until cancel,
      so `isCancelled` also says whether it was released. */
  class RecordLeading<V, E> {
    const id: SubId
    const recording: Recording<V, E>
    var isCancelled: bool
    var received: seq<Signal<V, E>>

    constructor (id: SubId, recording: Recording<V, E>)
      ensures this.id == id && this.recording == recording && !isCancelled && received == [Subscribe(id)]
    {
      this.id := id;
      this.recording := recording;
      isCancelled := false;
      received := [Subscribe(id)];
    }

    /** `cancel()` */
    method Cancel()
      modifies this`isCancelled
      ensures isCancelled
    {
      isCancelled := true;
    }

    /** `request(_:)`: after cancel nothing happens; otherwise the recorded
        values are played back from the start until the running demand
        drops to `.none`, and then the recorded completion is sent. The
        downstream answers `reply(i)` to the i-th value. */
    method Request(d: Demand, reply: nat -> Demand)
      modifies this`received
      ensures isCancelled ==> received == old(received)
      ensures !isCancelled ==>
                received == old(received) +
                            ValueSignals(recording.output[..Played(|recording.output|, d, reply, 0)]) +
                            [Completed(recording.completion)]
    {
      if isCancelled {
        return;
      }
      var output := recording.output;
      var demand := d;
      var i := 0;
      while i < |output|
        invariant 0 <= i <= |output|
        invariant Played(|output|, d, reply, 0) == Played(|output|, demand, reply, i)
        invariant received == old(received) + ValueSignals(output[..i])
        invariant i < |output| ==> Played(|output|, d, reply, 0) > i
      {
        assert output[..i + 1] == output[..i] + [output[i]];
        ValueSignalsSnoc<V, E>(output[..i], output[i]);
        received := received + [Value(output[i])];
        demand := Minus(demand, reply(i));
        i := i + 1;
        if AtMost(demand, Zero) {
          assert Played(|output|, d, reply, 0) == i;
          break;
        }
      }
      received := received + [Completed(recording.completion)];
    }
  }
}
