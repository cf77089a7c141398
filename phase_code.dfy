/**
 * Phase codes: unordered combinations of single phases. Every code lists its
 * single phases; a registry maps each code's phase set back to the code.
 */
module PhaseCodes {
  import K = Phases

  datatype PhaseCode =
    | NONE | A | B | C | N | AB | AC | AN | BC | BN | CN
    | ABC | ABN | ACN | BCN | ABCN | X | XN | XY | XYN | Y | YN

  /** The codes in declaration order. */
  function AllCodes(): seq<PhaseCode>
  {
    [NONE, A, B, C, N, AB, AC, AN, BC, BN, CN, ABC, ABN, ACN, BCN, ABCN, X, XN, XY, XYN, Y, YN]
  }

  /** The single phases each constant is declared with. NONE carries the single phase NONE. */
  function SinglePhases(c: PhaseCode): (s: seq<K.SinglePhaseKind>)
    ensures 1 <= |s| <= 4
    ensures K.INVALID !in s
    ensures (K.NONE in s) <==> c == NONE
  {
    match c
    case NONE => [K.NONE]
    case A => [K.A]
    case B => [K.B]
    case C => [K.C]
    case N => [K.N]
    case AB => [K.A, K.B]
    case AC => [K.A, K.C]
    case AN => [K.A, K.N]
    case BC => [K.B, K.C]
    case BN => [K.B, K.N]
    case CN => [K.C, K.N]
    case ABC => [K.A, K.B, K.C]
    case ABN => [K.A, K.B, K.N]
    case ACN => [K.A, K.C, K.N]
    case BCN => [K.B, K.C, K.N]
    case ABCN => [K.A, K.B, K.C, K.N]
    case X => [K.X]
    case XN => [K.X, K.N]
    case XY => [K.X, K.Y]
    case XYN => [K.X, K.Y, K.N]
    case Y => [K.Y]
    case YN => [K.Y, K.N]
  }

  function SetOf(s: seq<K.SinglePhaseKind>): (r: set<K.SinglePhaseKind>)
    ensures forall k :: k in r <==> k in s
  {
    set k | k in s
  }

  /** NONE counts no phases; every other code counts its single phases. */
  function NumPhases(c: PhaseCode): (n: nat)
    ensures n == 0 <==> c == NONE
    ensures n <= 4
  {
    if c == NONE then 0 else |SinglePhases(c)|
  }

  /**
   * The registry every constant fills at start-up, in declaration order:
   * `byPhases[set of its single phases] = code`, a later entry replacing an
   * earlier one with the same set.
   */
  function Register(codes: seq<PhaseCode>): map<set<K.SinglePhaseKind>, PhaseCode>
  {
    if codes == [] then map[]
    else Register(codes[..|codes| - 1])[SetOf(SinglePhases(codes[|codes| - 1])) := codes[|codes| - 1]]
  }

  function ByPhases(): map<set<K.SinglePhaseKind>, PhaseCode>
  {
    Register(AllCodes())
  }

  /** The registered code with exactly the given phases, NONE when there is none. */
  function FromSinglePhases(phases: seq<K.SinglePhaseKind>): (c: PhaseCode)
  {
    var key := SetOf(phases);
    if key in ByPhases() then ByPhases()[key] else NONE
  }

  /** The code without its neutral, the code itself when it has no neutral. */
  function WithoutNeutral(c: PhaseCode): PhaseCode
  {
    if K.N !in SinglePhases(c) then c
    else FromSinglePhases(Without(SinglePhases(c), K.N))
  }

  /** `filter { it != k }` */
  function Without(s: seq<K.SinglePhaseKind>, k: K.SinglePhaseKind): (r: seq<K.SinglePhaseKind>)
    ensures forall j :: j in r <==> j in s && j != k
  {
    if s == [] then [] else (if s[0] == k then [] else [s[0]]) + Without(s[1..], k)
  }

  /**
   * A reading of a phase set back into a code, used to show that no two codes
   * share a phase set.
   */
  function Decode(s: set<K.SinglePhaseKind>): PhaseCode
  {
    var a, b, c, n, x, y := K.A in s, K.B in s, K.C in s, K.N in s, K.X in s, K.Y in s;
    if x then (if y then (if n then XYN else XY) else if n then XN else X)
    else if y then (if n then YN else Y)
    else if a && b && c then (if n then ABCN else ABC)
    else if a && b then (if n then ABN else AB)
    else if a && c then (if n then ACN else AC)
    else if b && c then (if n then BCN else BC)
    else if a then (if n then AN else A)
    else if b then (if n then BN else B)
    else if c then (if n then CN else C)
    else if n then N
    else NONE
  }

  function Key(c: PhaseCode): set<K.SinglePhaseKind>
  {
    SetOf(SinglePhases(c))
  }

  /** Decoding the displayed phase set of a code gives the code. */
  lemma DecodeDisplay(c: PhaseCode)
    ensures Decode(Display(c)) == c
  {
    match c
    case NONE => assert Decode(Display(NONE)) == NONE;
    case A => assert Decode(Display(A)) == A;
    case B => assert Decode(Display(B)) == B;
    case C => assert Decode(Display(C)) == C;
    case N => assert Decode(Display(N)) == N;
    case AB => assert Decode(Display(AB)) == AB;
    case AC => assert Decode(Display(AC)) == AC;
    case AN => assert Decode(Display(AN)) == AN;
    case BC => assert Decode(Display(BC)) == BC;
    case BN => assert Decode(Display(BN)) == BN;
    case CN => assert Decode(Display(CN)) == CN;
    case ABC => assert Decode(Display(ABC)) == ABC;
    case ABN => assert Decode(Display(ABN)) == ABN;
    case ACN => assert Decode(Display(ACN)) == ACN;
    case BCN => assert Decode(Display(BCN)) == BCN;
    case ABCN => assert Decode(Display(ABCN)) == ABCN;
    case X => assert Decode(Display(X)) == X;
    case XN => assert Decode(Display(XN)) == XN;
    case XY => assert Decode(Display(XY)) == XY;
    case XYN => assert Decode(Display(XYN)) == XYN;
    case Y => assert Decode(Display(Y)) == Y;
    case YN => assert Decode(Display(YN)) == YN;
  }

  lemma DecodeKey(c: PhaseCode)
    ensures Decode(Key(c)) == c
  {
    KeyIsDisplay(c);
    DecodeDisplay(c);
  }

  /** No two codes are declared with the same set of single phases. */
  lemma KeyInjective(c: PhaseCode, d: PhaseCode)
    ensures Key(c) == Key(d) ==> c == d
  {
    DecodeKey(c);
    DecodeKey(d);
  }

  /** Proof helper: the registration list holds every code. */
  lemma AllCodesComplete(c: PhaseCode)
    ensures c in AllCodes()
  {
  }

  predicate Distinct(codes: seq<PhaseCode>)
  {
    forall i, j :: 0 <= i < j < |codes| ==> codes[i] != codes[j]
  }

  /** A code registered once, with no later code sharing its key, stays registered. */
  lemma {:induction false} RegisterHas(codes: seq<PhaseCode>, c: PhaseCode)
    requires c in codes
    ensures Key(c) in Register(codes) && Register(codes)[Key(c)] == c
  {
    var last := codes[|codes| - 1];
    if last != c {
      assert c in codes[..|codes| - 1] by {
        var i :| 0 <= i < |codes| && codes[i] == c;
        assert i < |codes| - 1;
        assert codes[..|codes| - 1][i] == c;
      }
      RegisterHas(codes[..|codes| - 1], c);
      KeyInjective(last, c);
    }
  }

  /** Every registry entry is some code's own key, mapped to that code. */
  lemma {:induction false} RegisterKeys(codes: seq<PhaseCode>, k: set<K.SinglePhaseKind>)
    requires k in Register(codes)
    ensures Register(codes)[k] in codes && Key(Register(codes)[k]) == k
  {
    var last := codes[|codes| - 1];
    if k != Key(last) {
      RegisterKeys(codes[..|codes| - 1], k);
    }
  }

  /** Each code owns a registry entry: looking up its own phases gives it back. */
  lemma FromSinglePhasesRoundTrip(c: PhaseCode)
    ensures FromSinglePhases(SinglePhases(c)) == c
  {
    AllCodesComplete(c);
    RegisterHas(AllCodes(), c);
  }

  /**
   * `fromSinglePhases` gives the code whose phase set is exactly the given
   * phases, NONE when no code has that set; the order and repetition of the
   * argument do not matter.
   */
  lemma FromSinglePhasesMeaning(phases: seq<K.SinglePhaseKind>)
    ensures forall c :: Key(c) == SetOf(phases) ==> FromSinglePhases(phases) == c
    ensures (forall c :: Key(c) != SetOf(phases)) ==> FromSinglePhases(phases) == NONE
  {
    forall c | Key(c) == SetOf(phases)
      ensures FromSinglePhases(phases) == c
    {
      AllCodesComplete(c);
      RegisterHas(AllCodes(), c);
    }
    if SetOf(phases) in ByPhases() {
      RegisterKeys(AllCodes(), SetOf(phases));
    }
  }

  /** Every code has at least one phase, so no code is registered under the empty set. */
  lemma NoCodeHasNoPhases()
    ensures forall d :: Key(d) != {}
  {
    forall d ensures Key(d) != {} {
      assert SinglePhases(d)[0] in Key(d);
    }
  }

  /** Dropping the neutral from a code with other phases keeps exactly those phases. */
  lemma WithoutNeutralDrops(c: PhaseCode)
    requires K.N in SinglePhases(c) && c != N
    ensures Key(WithoutNeutral(c)) == Key(c) - {K.N}
  {
    var s := Without(SinglePhases(c), K.N);
    assert SetOf(s) == Key(c) - {K.N};
    NeutralFreeCodeExists(c);
    FromSinglePhasesMeaning(s);
  }

  /** The neutral alone leaves nothing, which decodes to NONE. */
  lemma WithoutNeutralOfN()
    ensures WithoutNeutral(N) == NONE
  {
    var s := Without(SinglePhases(N), K.N);
    assert SetOf(s) == {};
    NoCodeHasNoPhases();
    FromSinglePhasesMeaning(s);
  }

  /**
   * Dropping the neutral keeps every other phase; a code without a neutral
   * is returned unchanged and N alone becomes NONE.
   */
  lemma WithoutNeutralMeaning(c: PhaseCode)
    ensures K.N !in SinglePhases(WithoutNeutral(c))
    ensures K.N !in SinglePhases(c) ==> WithoutNeutral(c) == c
    ensures K.N in SinglePhases(c) && c != N ==> Key(WithoutNeutral(c)) == Key(c) - {K.N}
    ensures c == N ==> WithoutNeutral(c) == NONE
  {
    if c == N {
      WithoutNeutralOfN();
    } else if K.N in SinglePhases(c) {
      WithoutNeutralDrops(c);
      assert K.N !in Key(WithoutNeutral(c));
    }
  }

  /** The phase set of each code, written out as a set display. */
  function Display(c: PhaseCode): set<K.SinglePhaseKind>
  {
    match c
    case NONE => {K.NONE}
    case A => {K.A}
    case B => {K.B}
    case C => {K.C}
    case N => {K.N}
    case AB => {K.A, K.B}
    case AC => {K.A, K.C}
    case AN => {K.A, K.N}
    case BC => {K.B, K.C}
    case BN => {K.B, K.N}
    case CN => {K.C, K.N}
    case ABC => {K.A, K.B, K.C}
    case ABN => {K.A, K.B, K.N}
    case ACN => {K.A, K.C, K.N}
    case BCN => {K.B, K.C, K.N}
    case ABCN => {K.A, K.B, K.C, K.N}
    case X => {K.X}
    case XN => {K.X, K.N}
    case XY => {K.X, K.Y}
    case XYN => {K.X, K.Y, K.N}
    case Y => {K.Y}
    case YN => {K.Y, K.N}
  }

  lemma KeyIsDisplay(c: PhaseCode)
    ensures Key(c) == Display(c)
  {
  }

  /** When `d` is `c` without its neutral, decoding `c`'s phases minus N finds a code with exactly those phases. */
  lemma DropNeutral(c: PhaseCode, d: PhaseCode)
    requires Display(c) - {K.N} == Display(d)
    ensures Key(Decode(Key(c) - {K.N})) == Key(c) - {K.N}
  {
    KeyIsDisplay(c);
    KeyIsDisplay(d);
    DecodeKey(d);
  }

  lemma NeutralFreeCodeExists(c: PhaseCode)
    requires K.N in SinglePhases(c) && c != N
    ensures Key(Decode(Key(c) - {K.N})) == Key(c) - {K.N}
  {
    KeyIsDisplay(c);
    assert K.N in Display(c);
    match c
    case AN => DropNeutral(c, A);
    case BN => DropNeutral(c, B);
    case CN => DropNeutral(c, C);
    case ABN => DropNeutral(c, AB);
    case ACN => DropNeutral(c, AC);
    case BCN => DropNeutral(c, BC);
    case ABCN => DropNeutral(c, ABC);
    case XN => DropNeutral(c, X);
    case XYN => DropNeutral(c, XY);
    case YN => DropNeutral(c, Y);
  }

  lemma WithoutNeutralIdempotent(c: PhaseCode)
    ensures WithoutNeutral(WithoutNeutral(c)) == WithoutNeutral(c)
  {
    WithoutNeutralMeaning(c);
  }
}
