/** `_Subscribers.Demand`: how many more values a subscriber accepts.
    The source stores an optional 64-bit `Int`; `nil` means unlimited.
    All arithmetic saturates instead of wrapping. */
module Demands {

  /** Bounds of Swift's (64-bit) `Int`. */
  const INT_MIN: int := -0x8000_0000_0000_0000
  const INT_MAX: int := 0x7FFF_FFFF_FFFF_FFFF

  predicate InRange(x: int) { INT_MIN <= x <= INT_MAX }

  /** A value of Swift's `Int`. */
  type Int = x: int | INT_MIN <= x <= INT_MAX

  /** `Unlimited` is `max == nil`; `Max(n)` is `max == n`. */
  datatype Demand = Unlimited | Max(count: Int) {
    /** `isUnlimited` */
    predicate IsUnlimited() { Unlimited? }

    /** A demand built by `Demand.max` or by the operators below is never
        a negative finite count. */
    predicate Valid() { Max? ==> count >= 0 }
  }

  /** `.none`, i.e. `.max(0)`. */
  const Zero: Demand := Max(0)

  /** `Demand.max(_:)`: traps on a negative count. */
  function MaxOf(v: Int): (d: Demand)
    requires v >= 0
    ensures !d.IsUnlimited() && d.Valid() && EqualsInt(d, v)
  {
    Max(v)
  }

  /** `==(Demand, Int)`: `.unlimited` equals no integer. */
  predicate EqualsInt(d: Demand, n: Int) {
    d.Max? && d.count == n
  }

  /** `<`: unlimited is never less; anything finite is less than unlimited. */
  predicate Less(a: Demand, b: Demand) {
    if a.Unlimited? then false
    else if b.Unlimited? then true
    else a.count < b.count
  }

  /** `>`, `<=` and `>=` come from `Comparable`'s defaults over `<`. */
  predicate Greater(a: Demand, b: Demand) { Less(b, a) }
  predicate AtMost(a: Demand, b: Demand) { !Less(b, a) }
  predicate AtLeast(a: Demand, b: Demand) { !Less(a, b) }

  /** `+`: unlimited absorbs; an `Int` overflow saturates to unlimited. */
  function Plus(a: Demand, b: Demand): (r: Demand)
    ensures a.Valid() && b.Valid() ==> r.Valid()
  {
    if a.Unlimited? || b.Unlimited? then Unlimited
    else if InRange(a.count + b.count) then Max(a.count + b.count)
    else Unlimited
  }

  /** `-`: unlimited minus anything is unlimited, finite minus unlimited is
      `.none`, and a finite difference is clamped at 0 (an `Int` overflow
      gives `.none`). */
  function Minus(a: Demand, b: Demand): (r: Demand)
    ensures r.Valid()
  {
    if a.Unlimited? then Unlimited
    else if b.Unlimited? then Zero
    else if InRange(a.count - b.count) then Max(if a.count - b.count < 0 then 0 else a.count - b.count)
    else Zero
  }

  /** `*` by a plain `Int`: unlimited stays unlimited, an overflowing product
      saturates to unlimited. The source places no sign check on `k`. */
  function Times(a: Demand, k: Int): (r: Demand)
    ensures a.Valid() && k >= 0 ==> r.Valid()
  {
    if a.Unlimited? then Unlimited
    else if InRange(a.count * k) then Max(a.count * k)
    else Unlimited
  }

  /** `+ (Demand, Int)` goes through `Demand.max(rhs)`, so a negative
      count traps; otherwise it adds `n`, saturating at unlimited. */
  function PlusInt(a: Demand, n: Int): (r: Demand)
    requires n >= 0
    ensures a.Unlimited? ==> r == Unlimited
    ensures a.Max? && a.count + n <= INT_MAX ==> r == Max(a.count + n)
    ensures a.Max? && a.count + n > INT_MAX ==> r == Unlimited
    ensures AtLeast(r, a)
  {
    Plus(a, MaxOf(n))
  }

  /** `- (Demand, Int)` goes through `Demand.max(rhs)`, so a negative
      count traps; otherwise it takes `n` away, clamped at none. */
  function MinusInt(a: Demand, n: Int): (r: Demand)
    requires n >= 0
    ensures r.Valid()
    ensures a.Unlimited? ==> r == Unlimited
    ensures a.Max? && a.Valid() ==> r == Max(if a.count >= n then a.count - n else 0)
    ensures a.Valid() ==> AtMost(r, a)
  {
    Minus(a, MaxOf(n))
  }

  // ---------------------------------------------------------------------
  // Properties of the arithmetic.

  lemma PlusUnlimited(a: Demand, b: Demand)
    requires a.Unlimited? || b.Unlimited?
    ensures Plus(a, b) == Unlimited
  {
  }

  /** Finite addition is exact until it overflows `Int`, and then it is
      unlimited: it never wraps to a smaller or negative count. */
  lemma PlusSaturates(a: Demand, b: Demand)
    requires a.Max? && b.Max? && a.Valid() && b.Valid()
    ensures a.count + b.count <= INT_MAX ==> Plus(a, b) == Max(a.count + b.count)
    ensures a.count + b.count > INT_MAX ==> Plus(a, b) == Unlimited
    ensures AtLeast(Plus(a, b), a) && AtLeast(Plus(a, b), b)
  {
  }

  lemma PlusCommutes(a: Demand, b: Demand)
    ensures Plus(a, b) == Plus(b, a)
  {
  }

  /** For valid demands, saturating addition is associative, so `+=` in any
      grouping reaches the same total. */
  lemma PlusAssociates(a: Demand, b: Demand, c: Demand)
    requires a.Valid() && b.Valid() && c.Valid()
    ensures Plus(Plus(a, b), c) == Plus(a, Plus(b, c))
  {
  }

  lemma MinusUnlimited(a: Demand, b: Demand)
    ensures a.Unlimited? ==> Minus(a, b) == Unlimited
    ensures a.Max? && b.Unlimited? ==> Minus(a, b) == Zero
  {
  }

  /** Finite subtraction is clamped: it never produces a negative count and
      never more than the left operand. */
  lemma MinusClamps(a: Demand, b: Demand)
    requires a.Max? && b.Max? && a.Valid() && b.Valid()
    ensures Minus(a, b) == Max(if a.count >= b.count then a.count - b.count else 0)
    ensures AtMost(Minus(a, b), a)
  {
  }

  /** Subtracting what was just added gives back the original demand, as
      long as the addition did not saturate. */
  lemma MinusUndoesPlus(a: Demand, b: Demand)
    requires a.Max? && b.Max? && a.Valid() && b.Valid()
    requires a.count + b.count <= INT_MAX
    ensures Minus(Plus(a, b), b) == a
  {
  }

  lemma TimesProperties(a: Demand, k: Int)
    ensures a.Unlimited? ==> Times(a, k) == Unlimited
    ensures a.Max? && !InRange(a.count * k) ==> Times(a, k) == Unlimited
    ensures a.Max? && k == 0 ==> Times(a, k) == Zero
  {
  }

  /** `<` is a strict total order in which unlimited is the top element. */
  lemma LessIsStrictTotalOrder(a: Demand, b: Demand, c: Demand)
    ensures !Less(a, a)
    ensures Less(a, b) && Less(b, c) ==> Less(a, c)
    ensures a == b || Less(a, b) || Less(b, a)
    ensures a.Max? ==> Less(a, Unlimited)
    ensures !Less(Unlimited, a)
  {
  }

  lemma UnlimitedEqualsNoInt(n: Int)
    ensures !EqualsInt(Unlimited, n)
  {
  }

  /** `isUnlimited` holds exactly for the demand that equals no integer. */
  lemma UnlimitedIffNoInt(d: Demand)
    ensures d.IsUnlimited() <==> forall n: Int :: !EqualsInt(d, n)
  {
    if d.Max? {
      assert EqualsInt(d, d.count);
    }
  }

  /** `d == n` holds exactly when `d` is `.max(n)`; a valid demand equals
      no negative integer. */
  lemma EqualsIntIsMax(d: Demand, n: Int)
    ensures n >= 0 ==> (EqualsInt(d, n) <==> d == MaxOf(n))
    ensures d.Valid() && n < 0 ==> !EqualsInt(d, n)
  {
  }

  /** `>`, `<=` and `>=` derived from `<` behave as the order they name:
      `<=` is `<` or equal, `>=` is `>` or equal, and `>` is not `<=`. */
  lemma DerivedComparisons(a: Demand, b: Demand)
    ensures Greater(a, b) <==> Less(b, a)
    ensures AtMost(a, b) <==> Less(a, b) || a == b
    ensures AtLeast(a, b) <==> Greater(a, b) || a == b
    ensures Greater(a, b) <==> !AtMost(a, b)
  {
  }

  /** Comparing a demand with an integer compares it with `.max(n)`:
      unlimited is above every integer, and a finite demand compares by
      its count. */
  lemma CompareWithInt(d: Demand, n: Int)
    requires n >= 0
    ensures Greater(d, MaxOf(n)) <==> d.Unlimited? || d.count > n
    ensures AtLeast(d, MaxOf(n)) <==> d.Unlimited? || d.count >= n
    ensures Less(d, MaxOf(n)) <==> d.Max? && d.count < n
    ensures AtMost(d, MaxOf(n)) <==> d.Max? && d.count <= n
  {
  }

  /** `d > 0` exactly when `d` is unlimited or a positive count. */
  lemma PositiveDemand(d: Demand)
    ensures Greater(d, Zero) <==> d.Unlimited? || d.count > 0
  {
  }
}
