/**
 * Single phase identifiers, the constituents of a `PhaseCode`.
 * The enum is declared in the order NONE, A, B, C, N, X, Y, INVALID and its
 * natural (ordinal) order is the one comparators use.
 */
module Phases {

  datatype SinglePhaseKind = NONE | A | B | C | N | X | Y | INVALID

  /** Position of the constant in the enum declaration. */
  function Ordinal(k: SinglePhaseKind): (o: nat)
    ensures o < 8
    ensures k == NONE <==> o == 0
  {
    match k
    case NONE => 0
    case A => 1
    case B => 2
    case C => 3
    case N => 4
    case X => 5
    case Y => 6
    case INVALID => 7
  }

  /** Enum comparison: `a.compareTo(b) <= 0`. */
  predicate KindLe(a: SinglePhaseKind, b: SinglePhaseKind)
  {
    Ordinal(a) <= Ordinal(b)
  }

  lemma OrdinalInjective(a: SinglePhaseKind, b: SinglePhaseKind)
    ensures Ordinal(a) == Ordinal(b) ==> a == b
  {
  }
}
