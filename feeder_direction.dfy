/**
 * Directions along a feeder at a terminal: NONE, UPSTREAM, DOWNSTREAM and
 * BOTH, encoded as the two-bit values 0, 1, 2 and 3.
 */
module FeederDirections {

  datatype FeederDirection = NONE | UPSTREAM | DOWNSTREAM | BOTH

  /** The integer each constant is declared with. */
  function Value(d: FeederDirection): (v: int)
    ensures 0 <= v <= 3
  {
    match d
    case NONE => 0
    case UPSTREAM => 1
    case DOWNSTREAM => 2
    case BOTH => 3
  }

  /** The constants sorted by their value, so that the value is the index. */
  function ByValue(): (t: seq<FeederDirection>)
    ensures |t| == 4
    ensures forall i :: 0 <= i < 4 ==> Value(t[i]) == i
  {
    [NONE, UPSTREAM, DOWNSTREAM, BOTH]
  }

  /** The bits a direction stands for: 0 is UPSTREAM, 1 is DOWNSTREAM. */
  function Bits(d: FeederDirection): (bits: set<nat>)
    ensures bits <= {0, 1}
  {
    match d
    case NONE => {}
    case UPSTREAM => {0}
    case DOWNSTREAM => {1}
    case BOTH => {0, 1}
  }

  function BitOr(v: int, w: int): int
    requires 0 <= v <= 3 && 0 <= w <= 3
  {
    ((v as bv2) | (w as bv2)) as int
  }

  function BitAnd(v: int, w: int): int
    requires 0 <= v <= 3 && 0 <= w <= 3
  {
    ((v as bv2) & (w as bv2)) as int
  }

  /** Value lookup: anything outside 1..3 is NONE. */
  function From(value: int): (d: FeederDirection)
    ensures 1 <= value <= 3 ==> Value(d) == value
    ensures (value <= 0 || value > 3) ==> d == NONE
  {
    if value <= 0 || value > 3 then NONE else ByValue()[value]
  }

  /** BOTH has every direction except NONE; any other direction has only itself. */
  predicate Has(d: FeederDirection, other: FeederDirection)
  {
    if d == BOTH then other != NONE else d == other
  }

  /** The direction with the bits of both operands. */
  function Plus(d: FeederDirection, rhs: FeederDirection): (r: FeederDirection)
    ensures Bits(r) == Bits(d) + Bits(rhs)
  {
    ByValue()[BitOr(Value(d), Value(rhs))]
  }

  /** The direction with the bits of `d` that `rhs` does not have. */
  function Minus(d: FeederDirection, rhs: FeederDirection): (r: FeederDirection)
    ensures Bits(r) == Bits(d) - Bits(rhs)
  {
    ByValue()[Value(d) - BitAnd(Value(d), Value(rhs))]
  }

  /** Bits determine the direction. */
  lemma BitsInjective(d: FeederDirection, e: FeederDirection)
    ensures Bits(d) == Bits(e) ==> d == e
  {
    if Bits(d) == Bits(e) {
      assert 0 in Bits(d) <==> 0 in Bits(e);
      assert 1 in Bits(d) <==> 1 in Bits(e);
    }
  }

  /** `From` inverts `Value`. */
  lemma FromValue(d: FeederDirection)
    ensures From(Value(d)) == d
  {
  }

  /**
   * `has` in terms of bits: a direction other than NONE is had when all its
   * bits are set, while NONE is had by NONE alone.
   */
  lemma HasIsBitContainment(d: FeederDirection, other: FeederDirection)
    ensures Has(d, other) <==> (if other == NONE then d == NONE else Bits(other) <= Bits(d))
  {
    if other != NONE && Bits(other) <= Bits(d) && d != BOTH {
      BitsInjective(d, other);
    }
  }

  /** Combining directions is commutative and idempotent and NONE is its unit. */
  lemma PlusAlgebra(a: FeederDirection, b: FeederDirection)
    ensures Plus(a, b) == Plus(b, a)
    ensures Plus(a, a) == a
    ensures Plus(a, NONE) == a
    ensures Plus(a, BOTH) == BOTH
    ensures Plus(UPSTREAM, DOWNSTREAM) == BOTH
  {
    BitsInjective(Plus(a, b), Plus(b, a));
    BitsInjective(Plus(a, a), a);
    BitsInjective(Plus(a, NONE), a);
    BitsInjective(Plus(a, BOTH), BOTH);
  }

  /** Removing what was just added leaves what was there apart from the added bits. */
  lemma MinusUndoesPlus(a: FeederDirection, b: FeederDirection)
    ensures Minus(Plus(a, b), b) == Minus(a, b)
    ensures Minus(a, a) == NONE
    ensures Minus(a, NONE) == a
    ensures Minus(BOTH, UPSTREAM) == DOWNSTREAM
  {
    BitsInjective(Minus(Plus(a, b), b), Minus(a, b));
    BitsInjective(Minus(a, a), NONE);
    BitsInjective(Minus(a, NONE), a);
  }

  /** Taking bits away and putting them back is the same as just putting them on. */
  lemma PlusAfterMinus(a: FeederDirection, b: FeederDirection)
    ensures Plus(Minus(a, b), b) == Plus(a, b)
  {
    BitsInjective(Plus(Minus(a, b), b), Plus(a, b));
  }
}
