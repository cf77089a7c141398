/**
 * The connectivity between two terminals: the terminal asked about, the
 * terminal connected to it, and the paths between their nominal phases,
 * kept sorted by from-phase and then to-phase.
 */
module ConnectivityResults {
  import K = Phases
  import S = Sorting
  import opened Wrappers
  import opened Topology
  import opened JavaInts

  /** A nominal phase on the from-terminal and the nominal phase it reaches on the to-terminal. */
  datatype NominalPhasePath = NominalPhasePath(from: K.SinglePhaseKind, to: K.SinglePhaseKind)

  datatype ConnectivityResult = ConnectivityResult(
    fromTerminal: TerminalRef,
    toTerminal: TerminalRef,
    nominalPhasePaths: seq<NominalPhasePath>)

  /** `comparing(from).thenComparing(to)`, both by enum order. */
  predicate PathLe(p: NominalPhasePath, q: NominalPhasePath)
  {
    K.Ordinal(p.from) < K.Ordinal(q.from) ||
    (p.from == q.from && K.Ordinal(p.to) <= K.Ordinal(q.to))
  }

  /** The path order is total, transitive and antisymmetric. */
  lemma PathLeIsTotalOrder()
    ensures S.TotalPreorder(PathLe)
    ensures S.Antisymmetric(PathLe)
  {
    forall p: NominalPhasePath, q: NominalPhasePath | PathLe(p, q) && PathLe(q, p)
      ensures p == q
    {
      K.OrdinalInjective(p.from, q.from);
      K.OrdinalInjective(p.to, q.to);
    }
    forall p: NominalPhasePath, q: NominalPhasePath
      ensures PathLe(p, q) || PathLe(q, p)
    {
      K.OrdinalInjective(p.from, q.from);
    }
  }

  /** The stored order of a path collection. */
  function SortPaths(paths: seq<NominalPhasePath>): seq<NominalPhasePath>
  {
    S.SortBy(paths, PathLe)
  }

  /**
   * `between`: copy the paths into a new list and sort that list in place.
   * The result holds the input's paths, duplicates included, in sorted order.
   */
  method Between(fromTerminal: TerminalRef, toTerminal: TerminalRef, paths: seq<NominalPhasePath>)
    returns (r: ConnectivityResult)
    ensures r.fromTerminal == fromTerminal && r.toTerminal == toTerminal
    ensures S.SortedBy(r.nominalPhasePaths, PathLe)
    ensures multiset(r.nominalPhasePaths) == multiset(paths)
    ensures r.nominalPhasePaths == SortPaths(paths)
  {
    var copy := new NominalPhasePath[|paths|](i requires 0 <= i < |paths| => paths[i]);
    assert copy[..] == paths;
    PathLeIsTotalOrder();
    S.SortInPlace(copy, PathLe);
    r := ConnectivityResult(fromTerminal, toTerminal, copy[..]);
    S.SortBySortsAndPermutes(paths, PathLe);
    S.SortedUnique(r.nominalPhasePaths, SortPaths(paths), PathLe);
  }

  /** Whatever order the paths are given in, the same result is built. */
  lemma SortPathsIgnoresOrder(p: seq<NominalPhasePath>, q: seq<NominalPhasePath>)
    requires multiset(p) == multiset(q)
    ensures SortPaths(p) == SortPaths(q)
  {
    PathLeIsTotalOrder();
    S.SortByIgnoresOrder(p, q, PathLe);
  }

  /** A sorted list is stored as it is. */
  lemma SortPathsKeepsSorted(p: seq<NominalPhasePath>)
    requires S.SortedBy(p, PathLe)
    ensures SortPaths(p) == p
  {
    PathLeIsTotalOrder();
    S.SortBySortsAndPermutes(p, PathLe);
    S.SortedUnique(SortPaths(p), p, PathLe);
  }

  /** `equals`: same from-terminal, same to-terminal and the same sorted paths. */
  predicate Equals(a: ConnectivityResult, b: ConnectivityResult)
  {
    a.fromTerminal == b.fromTerminal && a.toTerminal == b.toTerminal &&
    a.nominalPhasePaths == b.nominalPhasePaths
  }

  /**
   * Two results built by `between` for the same terminals are equal exactly
   * when they were given the same paths, duplicates counted, in any order.
   */
  lemma EqualsIffSamePaths(f: TerminalRef, t: TerminalRef, p: seq<NominalPhasePath>, q: seq<NominalPhasePath>)
    ensures Equals(ConnectivityResult(f, t, SortPaths(p)), ConnectivityResult(f, t, SortPaths(q)))
        <==> multiset(p) == multiset(q)
  {
    PathLeIsTotalOrder();
    if multiset(p) == multiset(q) {
      SortPathsIgnoresOrder(p, q);
    }
    S.SortBySortsAndPermutes(p, PathLe);
    S.SortBySortsAndPermutes(q, PathLe);
  }

  /** `fromNominalPhases`: the from-phase of each stored path, in order. */
  function FromNominalPhases(r: ConnectivityResult): (s: seq<K.SinglePhaseKind>)
    ensures |s| == |r.nominalPhasePaths|
    ensures forall i :: 0 <= i < |s| ==> s[i] == r.nominalPhasePaths[i].from
  {
    seq(|r.nominalPhasePaths|, i requires 0 <= i < |r.nominalPhasePaths| => r.nominalPhasePaths[i].from)
  }

  /** `toNominalPhases`: the to-phase of each stored path, in order. */
  function ToNominalPhases(r: ConnectivityResult): (s: seq<K.SinglePhaseKind>)
    ensures |s| == |r.nominalPhasePaths|
    ensures forall i :: 0 <= i < |s| ==> s[i] == r.nominalPhasePaths[i].to
  {
    seq(|r.nominalPhasePaths|, i requires 0 <= i < |r.nominalPhasePaths| => r.nominalPhasePaths[i].to)
  }

  /** The two projections zip back into the stored paths. */
  lemma ProjectionsZip(r: ConnectivityResult)
    ensures |FromNominalPhases(r)| == |ToNominalPhases(r)| == |r.nominalPhasePaths|
    ensures forall i :: 0 <= i < |r.nominalPhasePaths| ==>
      r.nominalPhasePaths[i] == NominalPhasePath(FromNominalPhases(r)[i], ToNominalPhases(r)[i])
  {
  }

  /** `from()`: the conducting equipment of the from-terminal, if it has one. */
  function From(net: Network, r: ConnectivityResult): (e: Option<EquipmentRef>)
    ensures e.Some? <==> r.fromTerminal in net.equipmentOf
    ensures e.Some? ==> e.value == net.equipmentOf[r.fromTerminal]
  {
    if r.fromTerminal in net.equipmentOf then Some(net.equipmentOf[r.fromTerminal]) else None
  }

  /** `to()`: the conducting equipment of the to-terminal, if it has one. */
  function To(net: Network, r: ConnectivityResult): (e: Option<EquipmentRef>)
    ensures e.Some? <==> r.toTerminal in net.equipmentOf
    ensures e.Some? ==> e.value == net.equipmentOf[r.toTerminal]
  {
    if r.toTerminal in net.equipmentOf then Some(net.equipmentOf[r.toTerminal]) else None
  }

  /**
   * `hashCode`: `Objects.hash(fromTerminal, toTerminal, nominalPhasePaths)`,
   * i.e. the list hash of the three field hashes. The terminal and path
   * hashes are those of the objects, given as parameters.
   */
  function HashCode(r: ConnectivityResult, terminalHash: TerminalRef -> int, pathHash: NominalPhasePath -> int): (h: int)
    ensures -TwoTo31 <= h < TwoTo31
  {
    ListHash([terminalHash(r.fromTerminal), terminalHash(r.toTerminal), ListHash(r.nominalPhasePaths, pathHash)], x => x)
  }
}
