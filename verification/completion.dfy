/** `_Subscribers.Completion`: the terminal signal of a stream. */
module Completions {

  datatype Completion<+E> = Finished | Failure(error: E)

  /** `isFinished` */
  predicate IsFinished<E>(c: Completion<E>) {
    c.Finished?
  }

  /** `mapError(transform:)` */
  function MapError<E, F>(c: Completion<E>, transform: E -> F): (r: Completion<F>)
    ensures IsFinished(r) <==> IsFinished(c)
    ensures c.Failure? ==> r.Failure? && r.error == transform(c.error)
  {
    match c
    case Failure(e) => Failure(transform(e))
    case Finished => Finished
  }

  /** A single-value coding container: `encodeNil()` or one encoded value. */
  datatype SingleValue<+E> = Nil | Encoded(value: E)

  /** `encode(to:)`: finished is written as nil, a failure as its error. */
  function Encode<E>(c: Completion<E>): (s: SingleValue<E>)
    ensures s.Nil? <==> IsFinished(c)
  {
    match c
    case Failure(e) => Encoded(e)
    case Finished => Nil
  }

  /** `init(from:)`: nil reads back as finished, anything else as a failure. */
  function Decode<E>(s: SingleValue<E>): (c: Completion<E>)
    ensures IsFinished(c) <==> s.Nil?
  {
    if s.Nil? then Finished else Failure(s.value)
  }

  lemma IsFinishedExactly<E>(c: Completion<E>)
    ensures IsFinished(c) <==> c == Finished
  {
  }

  lemma MapErrorIdentity<E>(c: Completion<E>)
    ensures MapError(c, (e: E) => e) == c
  {
  }

  /** Decoding inverts encoding, for both cases. */
  lemma RoundTrip<E>(c: Completion<E>)
    ensures Decode(Encode(c)) == c
  {
  }

  /** Encoding loses nothing: distinct completions encode differently. */
  lemma EncodeInjective<E>(c: Completion<E>, d: Completion<E>)
    requires Encode(c) == Encode(d)
    ensures c == d
  {
    RoundTrip(c);
    RoundTrip(d);
  }
}
