/** `_AnyCancellable`: a cancellation token that runs a closure, or cancels
    a wrapped cancellable, the first time it is cancelled. */
module AnyCancellable {
  import opened Wrappers
  import opened Signals

  /** An effect of cancelling: the closure ran, or the wrapped canceller
      (known by its identity) was cancelled. */
  datatype Effect = ClosureRan | CancellerCancelled(canceller: SubId)

  /** What one effective `cancel()` does, in order: run the closure (when
      the token was made from one; a token made from a canceller holds the
      empty closure), then cancel the wrapped canceller, if any. */
  function CancelEffects(hasClosure: bool, canceller: Option<SubId>): (es: seq<Effect>)
    ensures |es| <= 2
    ensures ClosureRan in es <==> hasClosure
    ensures forall c: SubId :: CancellerCancelled(c) in es <==> canceller == Some(c)
  {
    (if hasClosure then [ClosureRan] else []) +
    (if canceller.Some? then [CancellerCancelled(canceller.value)] else [])
  }

  class Cancellable {
    const hasClosure: bool
    /** The canceller given at initialisation, if any. */
    ghost const wrapped: Option<SubId>
    var isCancelled: bool
    var canceller: Option<SubId>
    /** The effects cancelling has had so far. */
    var effects: seq<Effect>

    /** Cancelling happened at most once: before, nothing has run and the
        canceller is held; after, the effects of one cancel are recorded
        and the canceller is released. */
    ghost predicate Valid()
      reads this
    {
      canceller == (if isCancelled then None else wrapped) &&
      effects == (if isCancelled then CancelEffects(hasClosure, wrapped) else [])
    }

    /** `init(_ cancel:)` */
    constructor FromClosure()
      ensures Valid() && hasClosure && wrapped == None && !isCancelled && effects == []
    {
      hasClosure := true;
      wrapped := None;
      isCancelled := false;
      canceller := None;
      effects := [];
    }

    /** `init(_ canceller:)`: the closure is the empty one. */
    constructor FromCanceller(c: SubId)
      ensures Valid() && !hasClosure && wrapped == Some(c) && canceller == Some(c) && !isCancelled && effects == []
    {
      hasClosure := false;
      wrapped := Some(c);
      isCancelled := false;
      canceller := Some(c);
      effects := [];
    }

    /** `cancel()`: the first call runs the closure, cancels and releases
        the canceller; later calls do nothing. */
    method Cancel()
      requires Valid()
      modifies this
      ensures Valid() && isCancelled && canceller == None
      ensures effects == CancelEffects(hasClosure, wrapped)
      ensures old(isCancelled) ==> effects == old(effects)
      ensures !old(isCancelled) ==> effects == old(effects) + CancelEffects(hasClosure, old(canceller))
    {
      if isCancelled {
        return;
      }
      isCancelled := true;
      if hasClosure {
        effects := effects + [ClosureRan];
      }
      if canceller.Some? {
        effects := effects + [CancellerCancelled(canceller.value)];
      }
      canceller := None;
    }

    /** `deinit`: discarding the token cancels it. */
    method Deinit()
      requires Valid()
      modifies this
      ensures Valid() && isCancelled && effects == CancelEffects(hasClosure, wrapped)
    {
      Cancel();
    }

    /** `==` is object identity. */
    predicate Equals(other: Cancellable)
    {
      this == other
    }
  }

  /** Equality looks at identity, not contents: two tokens made from the
      same canceller are different, and each equals itself. */
  method SeparateTokensDiffer(c: SubId) returns (a: Cancellable, b: Cancellable)
    ensures a.wrapped == b.wrapped == Some(c)
    ensures a.Equals(a) && b.Equals(b)
    ensures !a.Equals(b) && !b.Equals(a)
  {
    a := new Cancellable.FromCanceller(c);
    b := new Cancellable.FromCanceller(c);
  }
}
