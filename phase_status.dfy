/**
 * The traced phase of one nominal phase on a terminal: which phase flows
 * there and in which direction, with the operations that set, add and remove
 * it. Normal and current states are kept in separate tables.
 */
module PhaseStatus {
  import K = Phases
  import FD = FeederDirections
  import opened Wrappers
  import opened Topology

  /** Direction of a traced phase, with the same two-bit arithmetic as `FeederDirection`. */
  datatype PhaseDirection = NONE | IN | OUT | BOTH

  function ToFeeder(d: PhaseDirection): FD.FeederDirection
  {
    match d
    case NONE => FD.NONE
    case IN => FD.UPSTREAM
    case OUT => FD.DOWNSTREAM
    case BOTH => FD.BOTH
  }

  function FromFeeder(f: FD.FeederDirection): (d: PhaseDirection)
    ensures ToFeeder(d) == f
  {
    match f
    case NONE => NONE
    case UPSTREAM => IN
    case DOWNSTREAM => OUT
    case BOTH => BOTH
  }

  /** The bits of a direction: 0 for IN, 1 for OUT. */
  function Bits(d: PhaseDirection): set<nat>
  {
    FD.Bits(ToFeeder(d))
  }

  lemma BitsInjective(d: PhaseDirection, e: PhaseDirection)
    ensures Bits(d) == Bits(e) ==> d == e
  {
    FD.BitsInjective(ToFeeder(d), ToFeeder(e));
  }

  predicate Has(d: PhaseDirection, other: PhaseDirection)
  {
    FD.Has(ToFeeder(d), ToFeeder(other))
  }

  function Plus(d: PhaseDirection, rhs: PhaseDirection): (r: PhaseDirection)
    ensures Bits(r) == Bits(d) + Bits(rhs)
  {
    FromFeeder(FD.Plus(ToFeeder(d), ToFeeder(rhs)))
  }

  function Minus(d: PhaseDirection, rhs: PhaseDirection): (r: PhaseDirection)
    ensures Bits(r) == Bits(d) - Bits(rhs)
  {
    FromFeeder(FD.Minus(ToFeeder(d), ToFeeder(rhs)))
  }

  /** `has(BOTH)` holds of BOTH alone. */
  lemma HasBothOnlyBoth(d: PhaseDirection)
    ensures Has(d, BOTH) <==> d == BOTH
  {
  }

  /** The phase held and its direction. */
  datatype Status = Status(phase: K.SinglePhaseKind, direction: PhaseDirection)

  const Cleared := Status(K.NONE, NONE)

  /** A status holds a phase exactly when it has a direction. */
  predicate WellFormed(s: Status)
  {
    s.phase == K.NONE <==> s.direction == NONE
  }

  /** The new status and whether anything changed. */
  datatype Change = Change(status: Status, changed: bool)

  /** `set`: replace the status; a NONE phase or a NONE direction clears it. */
  function SetStatus(s: Status, phase: K.SinglePhaseKind, direction: PhaseDirection): (r: Change)
    ensures WellFormed(r.status)
    ensures phase == K.NONE || direction == NONE ==> r.status == Cleared
    ensures phase != K.NONE && direction != NONE ==> r.status == Status(phase, direction)
    ensures r.changed <==> r.status != s
  {
    var next := if phase == K.NONE || direction == NONE then Cleared else Status(phase, direction);
    Change(next, next != s)
  }

  /** Adding a phase on top of a different one is refused. */
  datatype PhaseError = CrossingPhases

  /**
   * `add`: merge a direction into the held phase. Adding to a status that
   * holds a different phase fails; a NONE phase or direction changes nothing.
   */
  function AddStatus(s: Status, phase: K.SinglePhaseKind, direction: PhaseDirection): (r: Result<Change, PhaseError>)
    requires WellFormed(s)
    ensures phase == K.NONE || direction == NONE ==> r == Success(Change(s, false))
    ensures r.Failure? <==> phase != K.NONE && direction != NONE && s.phase != K.NONE && s.phase != phase
    ensures r.Success? ==> WellFormed(r.value.status) && (r.value.changed <==> r.value.status != s)
    ensures r.Success? && phase != K.NONE && direction != NONE ==>
      r.value.status.phase == phase && Bits(r.value.status.direction) == Bits(s.direction) + Bits(direction)
  {
    if phase == K.NONE || direction == NONE then Success(Change(s, false))
    else if s.phase != K.NONE && s.phase != phase then Failure(CrossingPhases)
    else
      var next := Status(phase, Plus(s.direction, direction));
      Success(Change(next, next != s))
  }

  /**
   * `remove(phase, direction)`: take the direction's bits off the held
   * phase; a phase that is not held is left alone, and losing every bit
   * clears the status.
   */
  function RemoveStatus(s: Status, phase: K.SinglePhaseKind, direction: PhaseDirection): (r: Change)
    requires WellFormed(s)
    ensures s.phase != phase ==> r == Change(s, false)
    ensures s.phase == phase ==> Bits(r.status.direction) == Bits(s.direction) - Bits(direction)
    ensures r.status.phase == (if r.status.direction == NONE then K.NONE else s.phase)
    ensures WellFormed(r.status)
    ensures r.changed <==> r.status != s
  {
    if s.phase != phase then Change(s, false)
    else
      var dir := Minus(s.direction, direction);
      var next := if dir == NONE then Cleared else Status(phase, dir);
      Change(next, next != s)
  }

  /** `remove(phase)`: clear the status when it holds that phase, in any direction. */
  function RemoveAnyStatus(s: Status, phase: K.SinglePhaseKind): (r: Change)
    requires WellFormed(s)
    ensures r.changed <==> phase != K.NONE && s.phase == phase
    ensures r.changed ==> r.status == Cleared
    ensures !r.changed ==> r.status == s
  {
    if s.phase == phase && s.phase != K.NONE then Change(Cleared, true) else Change(s, false)
  }

  /** Setting the status it already has reports no change. */
  lemma SetIsIdempotent(s: Status, phase: K.SinglePhaseKind, direction: PhaseDirection)
    ensures !SetStatus(SetStatus(s, phase, direction).status, phase, direction).changed
  {
  }

  /** Adding what is already there reports no change. */
  lemma AddIsIdempotent(s: Status, phase: K.SinglePhaseKind, direction: PhaseDirection)
    requires WellFormed(s) && AddStatus(s, phase, direction).Success?
    ensures AddStatus(AddStatus(s, phase, direction).value.status, phase, direction) ==
            Success(Change(AddStatus(s, phase, direction).value.status, false))
  {
    var t := AddStatus(s, phase, direction).value.status;
    if phase != K.NONE && direction != NONE {
      BitsInjective(Plus(t.direction, direction), t.direction);
    }
  }

  /** Removing a direction from a cleared status after adding it gives the cleared status back. */
  lemma RemoveUndoesAdd(phase: K.SinglePhaseKind, direction: PhaseDirection)
    ensures AddStatus(Cleared, phase, direction).Success?
    ensures RemoveStatus(AddStatus(Cleared, phase, direction).value.status, phase, direction).status == Cleared
  {
    if phase != K.NONE && direction != NONE {
      BitsInjective(Minus(Plus(NONE, direction), direction), NONE);
    }
  }

  /** Removal never sets a bit and adding never clears one. */
  lemma RemovalOnlyClearsBits(s: Status, phase: K.SinglePhaseKind, direction: PhaseDirection)
    requires WellFormed(s)
    ensures Bits(RemoveStatus(s, phase, direction).status.direction) <= Bits(s.direction)
    ensures Bits(RemoveAnyStatus(s, phase).status.direction) <= Bits(s.direction)
    ensures AddStatus(s, phase, direction).Success? ==>
      Bits(s.direction) <= Bits(AddStatus(s, phase, direction).value.status.direction)
  {
  }

  /** Which of the two tables an operation works on. */
  datatype PhaseSelector = NormalPhases | CurrentPhases

  function Other(sel: PhaseSelector): PhaseSelector
  {
    if sel == NormalPhases then CurrentPhases else NormalPhases
  }

  /** A table entry: a terminal and one of its nominal phases. */
  type StatusKey = (TerminalRef, K.SinglePhaseKind)

  /** The status recorded under a key; a key never written is cleared. */
  function Lookup(table: map<StatusKey, Status>, key: StatusKey): Status
  {
    if key in table then table[key] else Cleared
  }

  predicate TableWellFormed(table: map<StatusKey, Status>)
  {
    forall k :: k in table ==> WellFormed(table[k])
  }

  /**
   * The traced phases of every terminal, normal and current: each nominal
   * phase of a terminal has one status per state.
   */
  class TracedPhasesStore {
    var normal: map<StatusKey, Status>
    var current: map<StatusKey, Status>

    ghost predicate Valid()
      reads this
    {
      TableWellFormed(normal) && TableWellFormed(current)
    }

    function Table(sel: PhaseSelector): map<StatusKey, Status>
      reads this
    {
      if sel == NormalPhases then normal else current
    }

    /** The status of `nominal` on terminal `t` in the selected state. */
    function StatusOf(sel: PhaseSelector, t: TerminalRef, nominal: K.SinglePhaseKind): (s: Status)
      reads this
      ensures TableWellFormed(Table(sel)) ==> WellFormed(s)
    {
      Lookup(Table(sel), (t, nominal))
    }

    constructor ()
      ensures Valid() && normal == map[] && current == map[]
    {
      normal := map[];
      current := map[];
    }

    /** Record a status in the selected table; the other table is untouched. */
    method Write(sel: PhaseSelector, key: StatusKey, s: Status)
      requires Valid() && WellFormed(s)
      modifies this
      ensures Valid()
      ensures Table(sel) == old(Table(sel))[key := s]
      ensures Table(Other(sel)) == old(Table(Other(sel)))
    {
      if sel == NormalPhases {
        normal := normal[key := s];
      } else {
        current := current[key := s];
      }
    }

    method Set(sel: PhaseSelector, t: TerminalRef, nominal: K.SinglePhaseKind, phase: K.SinglePhaseKind, direction: PhaseDirection)
      returns (changed: bool)
      requires Valid()
      modifies this
      ensures Valid()
      ensures changed == SetStatus(old(StatusOf(sel, t, nominal)), phase, direction).changed
      ensures StatusOf(sel, t, nominal) == SetStatus(old(StatusOf(sel, t, nominal)), phase, direction).status
      ensures Table(sel) == if changed then old(Table(sel))[(t, nominal) := StatusOf(sel, t, nominal)] else old(Table(sel))
      ensures Table(Other(sel)) == old(Table(Other(sel)))
    {
      var r := SetStatus(StatusOf(sel, t, nominal), phase, direction);
      changed := r.changed;
      if changed {
        Write(sel, (t, nominal), r.status);
      }
    }

    method Add(sel: PhaseSelector, t: TerminalRef, nominal: K.SinglePhaseKind, phase: K.SinglePhaseKind, direction: PhaseDirection)
      returns (r: Result<bool, PhaseError>)
      requires Valid()
      modifies this
      ensures Valid()
      ensures var a := AddStatus(old(StatusOf(sel, t, nominal)), phase, direction);
        (a.Failure? <==> r.Failure?) &&
        (a.Failure? ==> Table(sel) == old(Table(sel))) &&
        (a.Success? ==> r.value == a.value.changed && StatusOf(sel, t, nominal) == a.value.status)
      ensures r.Success? && !r.value ==> Table(sel) == old(Table(sel))
      ensures r.Success? && r.value ==> Table(sel) == old(Table(sel))[(t, nominal) := StatusOf(sel, t, nominal)]
      ensures Table(Other(sel)) == old(Table(Other(sel)))
    {
      var a := AddStatus(StatusOf(sel, t, nominal), phase, direction);
      if a.Failure? {
        return Failure(a.error);
      }
      if a.value.changed {
        Write(sel, (t, nominal), a.value.status);
      }
      r := Success(a.value.changed);
    }

    method Remove(sel: PhaseSelector, t: TerminalRef, nominal: K.SinglePhaseKind, phase: K.SinglePhaseKind, direction: PhaseDirection)
      returns (changed: bool)
      requires Valid()
      modifies this
      ensures Valid()
      ensures changed == RemoveStatus(old(StatusOf(sel, t, nominal)), phase, direction).changed
      ensures StatusOf(sel, t, nominal) == RemoveStatus(old(StatusOf(sel, t, nominal)), phase, direction).status
      ensures Table(sel) == if changed then old(Table(sel))[(t, nominal) := StatusOf(sel, t, nominal)] else old(Table(sel))
      ensures Table(Other(sel)) == old(Table(Other(sel)))
    {
      var r := RemoveStatus(StatusOf(sel, t, nominal), phase, direction);
      changed := r.changed;
      if changed {
        Write(sel, (t, nominal), r.status);
      }
    }

    method RemoveAny(sel: PhaseSelector, t: TerminalRef, nominal: K.SinglePhaseKind, phase: K.SinglePhaseKind)
      returns (changed: bool)
      requires Valid()
      modifies this
      ensures Valid()
      ensures changed == RemoveAnyStatus(old(StatusOf(sel, t, nominal)), phase).changed
      ensures StatusOf(sel, t, nominal) == RemoveAnyStatus(old(StatusOf(sel, t, nominal)), phase).status
      ensures Table(sel) == if changed then old(Table(sel))[(t, nominal) := StatusOf(sel, t, nominal)] else old(Table(sel))
      ensures Table(Other(sel)) == old(Table(Other(sel)))
    {
      var r := RemoveAnyStatus(StatusOf(sel, t, nominal), phase);
      changed := r.changed;
      if changed {
        Write(sel, (t, nominal), r.status);
      }
    }
  }
}
