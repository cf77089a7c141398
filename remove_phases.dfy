/**
 * Phase ebbing: starting at a terminal, de-energise a set of nominal
 * phases by clearing their OUT direction, then follow the connectivity and
 * clear the IN direction on the terminals that were fed only through them,
 * queueing the other terminals of their equipment to continue from. A
 * phase that is still fed from elsewhere stops the spread. The normal and
 * the current phase state are ebbed by two separate runs.
 *
 * The traversal engine is modelled as a worklist whose removal order is a
 * parameter; the network lookups are the `Network` value and the
 * connectivity function.
 */
module RemovePhases {
  import K = Phases
  import opened PhaseCodes
  import opened Wrappers
  import opened Topology
  import opened PhaseStatus
  import opened ConnectivityResults

  /** `NetworkService.connectedTerminals(terminal, phases)`. */
  type Connectivity = (TerminalRef, set<K.SinglePhaseKind>) -> seq<ConnectivityResult>

  type Table = map<StatusKey, Status>

  /** A work item: a terminal and the nominal phases to ebb from it. */
  datatype EbbPhases = EbbPhases(terminal: TerminalRef, nominalPhasesToEbb: set<K.SinglePhaseKind>)

  /** The weight the engine's priority queue orders items by. */
  function NumPhases(item: EbbPhases): nat
  {
    |item.nominalPhasesToEbb|
  }

  function GetSet<A(==), B(==)>(m: map<A, set<B>>, a: A): set<B>
  {
    if a in m then m[a] else {}
  }

  /** Pairs grouped by their first component, as `computeIfAbsent(a).add(b)` builds them. */
  function Group<A(==), B(==)>(pairs: set<(A, B)>): map<A, set<B>>
  {
    map a | a in Firsts(pairs) :: set x | x in pairs && x.0 == a :: x.1
  }

  function Firsts<A(==), B(==)>(pairs: set<(A, B)>): set<A>
  {
    set x | x in pairs :: x.0
  }

  lemma GroupMembership<A, B>(pairs: set<(A, B)>, a: A, b: B)
    ensures b in GetSet(Group(pairs), a) <==> (a, b) in pairs
  {
    if (a, b) in pairs {
      assert a in Firsts(pairs);
    }
  }

  /** Recording one more pair is one more `computeIfAbsent(a).add(b)`. */
  lemma GroupAdd<A, B>(pairs: set<(A, B)>, a: A, b: B)
    ensures Group(pairs + {(a, b)}) == Group(pairs)[a := GetSet(Group(pairs), a) + {b}]
  {
    var l, r := Group(pairs + {(a, b)}), Group(pairs)[a := GetSet(Group(pairs), a) + {b}];
    forall x | x in l ensures x in r && l[x] == r[x] {
      forall y ensures y in l[x] <==> y in r[x] {
        GroupMembership(pairs + {(a, b)}, x, y);
        GroupMembership(pairs, x, y);
      }
    }
    forall x | x in r ensures x in l {
      if x != a {
        var w :| w in pairs && w.0 == x;
        GroupMembership(pairs, x, w.1);
        GroupMembership(pairs + {(a, b)}, x, w.1);
      } else {
        GroupMembership(pairs + {(a, b)}, a, b);
      }
    }
  }

  // ---------------------------------------------------------------------
  // ebbPhases: clear one direction on a set of nominal phases of a terminal
  // ---------------------------------------------------------------------

  /** The status of `(t, p)` after `status.remove(status.phase(), direction)`. */
  function Removed(s: Status, direction: PhaseDirection): Status
    requires WellFormed(s)
  {
    RemoveStatus(s, s.phase, direction).status
  }

  /** `status.remove(status.phase(), direction)` reports a change for `(t, p)`. */
  predicate Ebbs(table: Table, t: TerminalRef, p: K.SinglePhaseKind, direction: PhaseDirection)
    requires TableWellFormed(table)
  {
    var s := Lookup(table, (t, p));
    RemoveStatus(s, s.phase, direction).changed
  }

  /** The requested phases whose removal changed something: what `ebbPhases` returns. */
  function Ebbed(table: Table, t: TerminalRef, phases: set<K.SinglePhaseKind>, direction: PhaseDirection): set<K.SinglePhaseKind>
    requires TableWellFormed(table)
  {
    set p | p in phases && Ebbs(table, t, p, direction)
  }

  /** The table after `ebbPhases`: the direction removed from every requested phase of `t`. */
  function AfterEbb(table: Table, t: TerminalRef, phases: set<K.SinglePhaseKind>, direction: PhaseDirection): (r: Table)
    requires TableWellFormed(table)
    ensures TableWellFormed(r)
  {
    map k | k in table :: if k.0 == t && k.1 in phases then Removed(table[k], direction) else table[k]
  }

  /** A phase is reported exactly when its status had a bit of the direction. */
  lemma EbbsMeansHadBit(table: Table, t: TerminalRef, p: K.SinglePhaseKind, direction: PhaseDirection)
    requires TableWellFormed(table)
    ensures Ebbs(table, t, p, direction) <==> Bits(Lookup(table, (t, p)).direction) * Bits(direction) != {}
  {
    var s := Lookup(table, (t, p));
    var r := RemoveStatus(s, s.phase, direction);
    if Bits(s.direction) * Bits(direction) == {} {
      assert Bits(Minus(s.direction, direction)) == Bits(s.direction);
      BitsInjective(Minus(s.direction, direction), s.direction);
    } else {
      assert Bits(r.status.direction) != Bits(s.direction);
    }
  }

  /** The set bits of a table: the measure that every step of the run shrinks or keeps. */
  ghost function SetBits(table: Table): set<(StatusKey, nat)>
  {
    set k, b | k in table && b in Bits(table[k].direction) :: (k, b)
  }

  /** After removing a direction, no requested phase of `t` has a bit of it. */
  lemma AfterEbbClears(table: Table, t: TerminalRef, phases: set<K.SinglePhaseKind>, direction: PhaseDirection, p: K.SinglePhaseKind)
    requires TableWellFormed(table) && p in phases
    ensures Bits(Lookup(AfterEbb(table, t, phases, direction), (t, p)).direction) * Bits(direction) == {}
  {
  }

  /** Ebbing only clears bits, and clears at least one when it reports a phase. */
  lemma AfterEbbShrinks(table: Table, t: TerminalRef, phases: set<K.SinglePhaseKind>, direction: PhaseDirection)
    requires TableWellFormed(table)
    ensures SetBits(AfterEbb(table, t, phases, direction)) <= SetBits(table)
    ensures Ebbed(table, t, phases, direction) != {} ==> SetBits(AfterEbb(table, t, phases, direction)) < SetBits(table)
    ensures Ebbed(table, t, phases, direction) == {} ==> AfterEbb(table, t, phases, direction) == table
  {
    var after := AfterEbb(table, t, phases, direction);
    forall x | x in SetBits(after) ensures x in SetBits(table) {
      assert x.0 in after && x.1 in Bits(after[x.0].direction);
    }
    if Ebbed(table, t, phases, direction) != {} {
      var p :| p in Ebbed(table, t, phases, direction);
      EbbsMeansHadBit(table, t, p, direction);
      var b :| b in Bits(Lookup(table, (t, p)).direction) * Bits(direction);
      assert ((t, p), b) in SetBits(table);
      AfterEbbClears(table, t, phases, direction, p);
      assert ((t, p), b) !in SetBits(after);
    } else {
      forall k | k in table ensures after[k] == table[k] {
        if k.0 == t && k.1 in phases {
          assert k.1 !in Ebbed(table, t, phases, direction);
          assert Lookup(table, k) == table[k];
        }
      }
    }
  }

  /** A key never written holds a cleared status, which nothing can be removed from. */
  lemma ClearedNeverEbbs(direction: PhaseDirection)
    ensures !RemoveStatus(Cleared, Cleared.phase, direction).changed
  {
    BitsInjective(RemoveStatus(Cleared, Cleared.phase, direction).status.direction, PhaseDirection.NONE);
  }

  /** One more phase through `ebbPhases`: only its own key can change. */
  lemma AfterEbbStep(table: Table, t: TerminalRef, done: set<K.SinglePhaseKind>, p: K.SinglePhaseKind, direction: PhaseDirection)
    requires TableWellFormed(table) && p !in done
    ensures Lookup(AfterEbb(table, t, done, direction), (t, p)) == Lookup(table, (t, p))
    ensures Ebbs(table, t, p, direction) ==>
      AfterEbb(table, t, done + {p}, direction) == AfterEbb(table, t, done, direction)[(t, p) := Removed(Lookup(table, (t, p)), direction)]
    ensures !Ebbs(table, t, p, direction) ==>
      AfterEbb(table, t, done + {p}, direction) == AfterEbb(table, t, done, direction)
  {
    if Ebbs(table, t, p, direction) {
      AfterEbbStepChanged(table, t, done, p, direction);
    } else {
      AfterEbbStepUnchanged(table, t, done, p, direction);
    }
  }

  lemma AfterEbbStepChanged(table: Table, t: TerminalRef, done: set<K.SinglePhaseKind>, p: K.SinglePhaseKind, direction: PhaseDirection)
    requires TableWellFormed(table) && p !in done && Ebbs(table, t, p, direction)
    ensures AfterEbb(table, t, done + {p}, direction) == AfterEbb(table, t, done, direction)[(t, p) := Removed(Lookup(table, (t, p)), direction)]
  {
    var before, after := AfterEbb(table, t, done, direction), AfterEbb(table, t, done + {p}, direction);
    if (t, p) !in table {
      ClearedNeverEbbs(direction);
      assert false;
    }
    var upd := before[(t, p) := Removed(table[(t, p)], direction)];
    assert after.Keys == upd.Keys;
    forall k | k in after ensures after[k] == upd[k] {
    }
  }

  lemma AfterEbbStepUnchanged(table: Table, t: TerminalRef, done: set<K.SinglePhaseKind>, p: K.SinglePhaseKind, direction: PhaseDirection)
    requires TableWellFormed(table) && p !in done && !Ebbs(table, t, p, direction)
    ensures AfterEbb(table, t, done + {p}, direction) == AfterEbb(table, t, done, direction)
  {
    var before, after := AfterEbb(table, t, done, direction), AfterEbb(table, t, done + {p}, direction);
    assert after.Keys == before.Keys;
    forall k | k in after ensures after[k] == before[k] {
      if k == (t, p) {
        var s := table[k];
        assert Lookup(table, k) == s;
        assert !RemoveStatus(s, s.phase, direction).changed;
      }
    }
  }

  lemma AfterEbbNothing(table: Table, t: TerminalRef, direction: PhaseDirection)
    requires TableWellFormed(table)
    ensures AfterEbb(table, t, {}, direction) == table
  {
  }

  lemma EbbedStep(table: Table, t: TerminalRef, done: set<K.SinglePhaseKind>, p: K.SinglePhaseKind, direction: PhaseDirection)
    requires TableWellFormed(table)
    ensures Ebbed(table, t, done + {p}, direction) ==
      Ebbed(table, t, done, direction) + (if Ebbs(table, t, p, direction) then {p} else {})
  {
  }

  /**
   * `ebbPhases`: remove `direction` from every requested phase of `t` and
   * report the phases where that changed something.
   */
  method EbbPhasesAt(store: TracedPhasesStore, sel: PhaseSelector, t: TerminalRef, phases: set<K.SinglePhaseKind>, direction: PhaseDirection)
    returns (had: set<K.SinglePhaseKind>)
    requires store.Valid()
    modifies store
    ensures store.Valid()
    ensures had == Ebbed(old(store.Table(sel)), t, phases, direction)
    ensures store.Table(sel) == AfterEbb(old(store.Table(sel)), t, phases, direction)
    ensures store.Table(Other(sel)) == old(store.Table(Other(sel)))
  {
    ghost var table := store.Table(sel);
    had := {};
    var remaining := phases;
    ghost var done: set<K.SinglePhaseKind> := {};
    AfterEbbNothing(table, t, direction);
    while remaining != {}
      invariant remaining + done == phases && remaining * done == {}
      invariant store.Valid()
      invariant had == Ebbed(table, t, done, direction)
      invariant store.Table(sel) == AfterEbb(table, t, done, direction)
      invariant store.Table(Other(sel)) == old(store.Table(Other(sel)))
      decreases remaining
    {
      var p :| p in remaining;
      AfterEbbStep(table, t, done, p, direction);
      EbbedStep(table, t, done, p, direction);
      var s := store.StatusOf(sel, t, p);
      var changed := store.Remove(sel, t, p, s.phase, direction);
      if changed {
        had := had + {p};
      }
      remaining := remaining - {p};
      done := done + {p};
    }
  }

  // ---------------------------------------------------------------------
  // sortTerminalsByPhase: index the connectivity results by from-phase
  // ---------------------------------------------------------------------

  /** The path is fed from elsewhere: its to-terminal's status for the to-phase has direction BOTH. */
  predicate IsOtherFeed(table: Table, cr: ConnectivityResult, path: NominalPhasePath)
    requires TableWellFormed(table)
  {
    Has(Lookup(table, (cr.toTerminal, path.to)).direction, BOTH)
  }

  /** The (from-phase, result) entries recorded for the first `j` paths of one result. */
  function ListedPathPairs(cr: ConnectivityResult, j: nat): set<(K.SinglePhaseKind, ConnectivityResult)>
    requires j <= |cr.nominalPhasePaths|
  {
    set k | 0 <= k < j :: (cr.nominalPhasePaths[k].from, cr)
  }

  /** The (from-phase, result) feed entries recorded for the first `j` paths of one result. */
  function FeedPathPairs(table: Table, cr: ConnectivityResult, j: nat): set<(K.SinglePhaseKind, ConnectivityResult)>
    requires TableWellFormed(table) && j <= |cr.nominalPhasePaths|
  {
    set k | 0 <= k < j && IsOtherFeed(table, cr, cr.nominalPhasePaths[k]) :: (cr.nominalPhasePaths[k].from, cr)
  }

  /** Every entry `terminalsByPhase` receives from a list of results. */
  function ListedPairs(crs: seq<ConnectivityResult>): set<(K.SinglePhaseKind, ConnectivityResult)>
  {
    if crs == [] then {}
    else ListedPairs(crs[..|crs| - 1]) + ListedPathPairs(crs[|crs| - 1], |crs[|crs| - 1].nominalPhasePaths|)
  }

  /** Every entry `otherFeedsByPhase` receives from a list of results. */
  function FeedPairs(table: Table, crs: seq<ConnectivityResult>): set<(K.SinglePhaseKind, ConnectivityResult)>
    requires TableWellFormed(table)
  {
    if crs == [] then {}
    else FeedPairs(table, crs[..|crs| - 1]) + FeedPathPairs(table, crs[|crs| - 1], |crs[|crs| - 1].nominalPhasePaths|)
  }

  function TerminalsByPhase(crs: seq<ConnectivityResult>): map<K.SinglePhaseKind, set<ConnectivityResult>>
  {
    Group(ListedPairs(crs))
  }

  function OtherFeedsByPhase(table: Table, crs: seq<ConnectivityResult>): map<K.SinglePhaseKind, set<ConnectivityResult>>
    requires TableWellFormed(table)
  {
    Group(FeedPairs(table, crs))
  }

  predicate HasPathFrom(cr: ConnectivityResult, p: K.SinglePhaseKind)
  {
    exists k :: 0 <= k < |cr.nominalPhasePaths| && cr.nominalPhasePaths[k].from == p
  }

  predicate HasFeedFrom(table: Table, cr: ConnectivityResult, p: K.SinglePhaseKind)
    requires TableWellFormed(table)
  {
    exists k :: 0 <= k < |cr.nominalPhasePaths| && cr.nominalPhasePaths[k].from == p &&
      IsOtherFeed(table, cr, cr.nominalPhasePaths[k])
  }

  /** A result is listed under a phase exactly when one of its paths starts on that phase. */
  lemma {:induction false} ListedPairsMeaning(crs: seq<ConnectivityResult>, p: K.SinglePhaseKind, cr: ConnectivityResult)
    ensures (p, cr) in ListedPairs(crs) <==> cr in crs && HasPathFrom(cr, p)
  {
    if crs != [] {
      var init, last := crs[..|crs| - 1], crs[|crs| - 1];
      ListedPairsMeaning(init, p, cr);
      assert crs == init + [last];
      if (p, cr) in ListedPathPairs(last, |last.nominalPhasePaths|) {
        var k :| 0 <= k < |last.nominalPhasePaths| && (last.nominalPhasePaths[k].from, last) == (p, cr);
      }
      if cr == last && HasPathFrom(cr, p) {
        var k :| 0 <= k < |cr.nominalPhasePaths| && cr.nominalPhasePaths[k].from == p;
        assert (p, cr) in ListedPathPairs(last, |last.nominalPhasePaths|);
      }
    }
  }

  /**
   * A result counts as another feed on a phase exactly when one of its paths
   * starts on that phase and the status it reaches has direction BOTH.
   */
  lemma {:induction false} FeedPairsMeaning(table: Table, crs: seq<ConnectivityResult>, p: K.SinglePhaseKind, cr: ConnectivityResult)
    requires TableWellFormed(table)
    ensures (p, cr) in FeedPairs(table, crs) <==> cr in crs && HasFeedFrom(table, cr, p)
  {
    if crs != [] {
      var init, last := crs[..|crs| - 1], crs[|crs| - 1];
      FeedPairsMeaning(table, init, p, cr);
      assert crs == init + [last];
      if (p, cr) in FeedPathPairs(table, last, |last.nominalPhasePaths|) {
        var k :| 0 <= k < |last.nominalPhasePaths| && IsOtherFeed(table, last, last.nominalPhasePaths[k]) &&
          (last.nominalPhasePaths[k].from, last) == (p, cr);
      }
      if cr == last && HasFeedFrom(table, cr, p) {
        var k :| 0 <= k < |cr.nominalPhasePaths| && cr.nominalPhasePaths[k].from == p &&
          IsOtherFeed(table, cr, cr.nominalPhasePaths[k]);
        assert (p, cr) in FeedPathPairs(table, last, |last.nominalPhasePaths|);
      }
    }
  }

  /** Every other feed on a phase is also listed under that phase. */
  lemma FeedsAreListed(table: Table, crs: seq<ConnectivityResult>, p: K.SinglePhaseKind)
    requires TableWellFormed(table)
    ensures GetSet(OtherFeedsByPhase(table, crs), p) <= GetSet(TerminalsByPhase(crs), p)
  {
    forall cr | cr in GetSet(OtherFeedsByPhase(table, crs), p)
      ensures cr in GetSet(TerminalsByPhase(crs), p)
    {
      GroupMembership(FeedPairs(table, crs), p, cr);
      FeedPairsMeaning(table, crs, p, cr);
      ListedPairsMeaning(crs, p, cr);
      GroupMembership(ListedPairs(crs), p, cr);
    }
  }

  /** The inner loop of `sortTerminalsByPhase`: files one result under each of its paths' from-phases. */
  method FilePaths(cr: ConnectivityResult, table: Table,
                   terminalsByPhase: map<K.SinglePhaseKind, set<ConnectivityResult>>,
                   otherFeedsByPhase: map<K.SinglePhaseKind, set<ConnectivityResult>>,
                   ghost listed: set<(K.SinglePhaseKind, ConnectivityResult)>,
                   ghost feeds: set<(K.SinglePhaseKind, ConnectivityResult)>)
    returns (tbp: map<K.SinglePhaseKind, set<ConnectivityResult>>,
             ofp: map<K.SinglePhaseKind, set<ConnectivityResult>>)
    requires TableWellFormed(table)
    requires terminalsByPhase == Group(listed) && otherFeedsByPhase == Group(feeds)
    ensures tbp == Group(listed + ListedPathPairs(cr, |cr.nominalPhasePaths|))
    ensures ofp == Group(feeds + FeedPathPairs(table, cr, |cr.nominalPhasePaths|))
  {
    tbp, ofp := terminalsByPhase, otherFeedsByPhase;
    ghost var l, f := listed, feeds;
    var j := 0;
    while j < |cr.nominalPhasePaths|
      invariant 0 <= j <= |cr.nominalPhasePaths|
      invariant l == listed + ListedPathPairs(cr, j) && tbp == Group(l)
      invariant f == feeds + FeedPathPairs(table, cr, j) && ofp == Group(f)
    {
      var path := cr.nominalPhasePaths[j];
      GroupAdd(l, path.from, cr);
      tbp := tbp[path.from := GetSet(tbp, path.from) + {cr}];
      l := l + {(path.from, cr)};
      assert ListedPathPairs(cr, j + 1) == ListedPathPairs(cr, j) + {(path.from, cr)};
      if Has(Lookup(table, (cr.toTerminal, path.to)).direction, BOTH) {
        GroupAdd(f, path.from, cr);
        ofp := ofp[path.from := GetSet(ofp, path.from) + {cr}];
        f := f + {(path.from, cr)};
        assert FeedPathPairs(table, cr, j + 1) == FeedPathPairs(table, cr, j) + {(path.from, cr)};
      } else {
        assert FeedPathPairs(table, cr, j + 1) == FeedPathPairs(table, cr, j);
      }
      j := j + 1;
    }
  }

  /** `sortTerminalsByPhase`: one pass over the results and their paths fills both indexes. */
  method SortTerminalsByPhase(crs: seq<ConnectivityResult>, table: Table)
    returns (terminalsByPhase: map<K.SinglePhaseKind, set<ConnectivityResult>>,
             otherFeedsByPhase: map<K.SinglePhaseKind, set<ConnectivityResult>>)
    requires TableWellFormed(table)
    ensures terminalsByPhase == TerminalsByPhase(crs)
    ensures otherFeedsByPhase == OtherFeedsByPhase(table, crs)
  {
    terminalsByPhase, otherFeedsByPhase := map[], map[];
    var i := 0;
    while i < |crs|
      invariant 0 <= i <= |crs|
      invariant terminalsByPhase == Group(ListedPairs(crs[..i]))
      invariant otherFeedsByPhase == Group(FeedPairs(table, crs[..i]))
    {
      terminalsByPhase, otherFeedsByPhase :=
        FilePaths(crs[i], table, terminalsByPhase, otherFeedsByPhase, ListedPairs(crs[..i]), FeedPairs(table, crs[..i]));
      assert crs[..i + 1][..i] == crs[..i];
      i := i + 1;
    }
    assert crs[..i] == crs;
  }

  /**
   * Every other feed of a phase found in the results: a result that
   * reaches a status with direction BOTH along a path from that phase.
   */
  ghost function OtherFeeds(table: Table, crs: seq<ConnectivityResult>, p: K.SinglePhaseKind): set<ConnectivityResult>
    requires TableWellFormed(table)
  {
    set cr | cr in crs && HasFeedFrom(table, cr, p)
  }

  lemma OtherFeedsIndex(table: Table, crs: seq<ConnectivityResult>, p: K.SinglePhaseKind)
    requires TableWellFormed(table)
    ensures GetSet(OtherFeedsByPhase(table, crs), p) == OtherFeeds(table, crs, p)
  {
    forall cr ensures cr in GetSet(OtherFeedsByPhase(table, crs), p) <==> cr in OtherFeeds(table, crs, p) {
      GroupMembership(FeedPairs(table, crs), p, cr);
      FeedPairsMeaning(table, crs, p, cr);
    }
  }

  // ---------------------------------------------------------------------
  // Selecting the connected terminals to ebb IN on
  // ---------------------------------------------------------------------

  /**
   * The results a processed phase spreads to: every result listed on the
   * phase when nothing else feeds it, only the other feed when there is
   * exactly one, and none when two or more still feed it.
   */
  function SelectedFor(p: K.SinglePhaseKind, terminalsByPhase: map<K.SinglePhaseKind, set<ConnectivityResult>>,
                       otherFeedsByPhase: map<K.SinglePhaseKind, set<ConnectivityResult>>): set<ConnectivityResult>
  {
    var feeds := GetSet(otherFeedsByPhase, p);
    if feeds == {} then GetSet(terminalsByPhase, p)
    else if |feeds| == 1 then feeds
    else {}
  }

  /** The to-phase of the first path leaving from `p`, or NONE when no path does. */
  function MappedPhase(paths: seq<NominalPhasePath>, p: K.SinglePhaseKind): (r: K.SinglePhaseKind)
    ensures (forall k :: 0 <= k < |paths| ==> paths[k].from != p) ==> r == K.NONE
    ensures forall k :: 0 <= k < |paths| && paths[k].from == p && (forall j :: 0 <= j < k ==> paths[j].from != p) ==>
      r == paths[k].to
  {
    if paths == [] then K.NONE
    else if paths[0].from == p then paths[0].to
    else MappedPhase(paths[1..], p)
  }

  /** A path leaving from `p` exists, so the phase added is the to-phase of one of them. */
  lemma {:induction false} MappedPhaseIsAPathTo(paths: seq<NominalPhasePath>, p: K.SinglePhaseKind)
    requires exists k :: 0 <= k < |paths| && paths[k].from == p
    ensures exists k :: 0 <= k < |paths| && paths[k].from == p && MappedPhase(paths, p) == paths[k].to
  {
    if paths[0].from != p {
      var k :| 0 <= k < |paths| && paths[k].from == p;
      assert paths[1..][k - 1] == paths[k];
      MappedPhaseIsAPathTo(paths[1..], p);
      var j :| 0 <= j < |paths[1..]| && paths[1..][j].from == p && MappedPhase(paths[1..], p) == paths[1..][j].to;
      assert paths[j + 1] == paths[1..][j];
    } else {
      assert paths[0].from == p && MappedPhase(paths, p) == paths[0].to;
    }
  }

  /** The (terminal, phase) entries `addTerminalPhases` records for one phase. */
  function PhasePairs(terminals: set<ConnectivityResult>, p: K.SinglePhaseKind): set<(TerminalRef, K.SinglePhaseKind)>
  {
    set cr | cr in terminals :: (cr.toTerminal, MappedPhase(cr.nominalPhasePaths, p))
  }

  /** The (terminal, phase) entries recorded for every processed phase. */
  function SelectionPairs(processed: set<K.SinglePhaseKind>,
                          terminalsByPhase: map<K.SinglePhaseKind, set<ConnectivityResult>>,
                          otherFeedsByPhase: map<K.SinglePhaseKind, set<ConnectivityResult>>): set<(TerminalRef, K.SinglePhaseKind)>
  {
    set p, cr | p in processed && cr in SelectedFor(p, terminalsByPhase, otherFeedsByPhase) ::
      (cr.toTerminal, MappedPhase(cr.nominalPhasePaths, p))
  }

  /** `phasesByTerminalsToEbbAndQueue` for the results of one OUT step. */
  function Targets(table: Table, crs: seq<ConnectivityResult>, processed: set<K.SinglePhaseKind>): map<TerminalRef, set<K.SinglePhaseKind>>
    requires TableWellFormed(table)
  {
    Group(SelectionPairs(processed, TerminalsByPhase(crs), OtherFeedsByPhase(table, crs)))
  }

  /**
   * The feed-count rule in terms of the results themselves: a result is
   * selected for a phase exactly when it has a path from that phase and
   * either nothing else feeds the phase or it is the single other feed.
   */
  lemma SelectionRule(table: Table, crs: seq<ConnectivityResult>, p: K.SinglePhaseKind, cr: ConnectivityResult)
    requires TableWellFormed(table)
    ensures var feeds := OtherFeeds(table, crs, p);
      cr in SelectedFor(p, TerminalsByPhase(crs), OtherFeedsByPhase(table, crs)) <==>
      cr in crs && HasPathFrom(cr, p) && (feeds == {} || feeds == {cr})
  {
    var feeds := OtherFeeds(table, crs, p);
    OtherFeedsIndex(table, crs, p);
    ListedPairsMeaning(crs, p, cr);
    GroupMembership(ListedPairs(crs), p, cr);
    if feeds != {} && |feeds| == 1 && cr in feeds {
      assert |feeds - {cr}| == 0;
      assert feeds == {cr};
    }
    if feeds == {cr} {
      assert |feeds| == 1;
    }
  }

  /** With two or more other feeds on every processed phase, nothing is selected. */
  lemma MultiFeedSelectsNothing(table: Table, crs: seq<ConnectivityResult>, processed: set<K.SinglePhaseKind>)
    requires TableWellFormed(table)
    requires forall p :: p in processed ==> |OtherFeeds(table, crs, p)| >= 2
    ensures Targets(table, crs, processed) == map[]
  {
    forall p | p in processed ensures SelectedFor(p, TerminalsByPhase(crs), OtherFeedsByPhase(table, crs)) == {} {
      OtherFeedsIndex(table, crs, p);
    }
    assert SelectionPairs(processed, TerminalsByPhase(crs), OtherFeedsByPhase(table, crs)) == {};
  }

  /**
   * A terminal is ebbed on a phase exactly when a selected result reaches it
   * and the phase is that result's mapping of a processed phase; the phase
   * is always a path's to-phase, never the NONE fallback.
   */
  lemma TargetsMeaning(table: Table, crs: seq<ConnectivityResult>, processed: set<K.SinglePhaseKind>, t: TerminalRef, q: K.SinglePhaseKind)
    requires TableWellFormed(table)
    ensures q in GetSet(Targets(table, crs, processed), t) <==>
      exists p, cr :: p in processed && cr in SelectedFor(p, TerminalsByPhase(crs), OtherFeedsByPhase(table, crs)) &&
        cr.toTerminal == t && q == MappedPhase(cr.nominalPhasePaths, p)
    ensures q in GetSet(Targets(table, crs, processed), t) ==>
      exists p, cr, k :: p in processed && cr in crs && 0 <= k < |cr.nominalPhasePaths| && cr.toTerminal == t &&
        cr.nominalPhasePaths[k].from == p && cr.nominalPhasePaths[k].to == q
  {
    GroupMembership(SelectionPairs(processed, TerminalsByPhase(crs), OtherFeedsByPhase(table, crs)), t, q);
    if q in GetSet(Targets(table, crs, processed), t) {
      var p, cr :| p in processed && cr in SelectedFor(p, TerminalsByPhase(crs), OtherFeedsByPhase(table, crs)) &&
        cr.toTerminal == t && q == MappedPhase(cr.nominalPhasePaths, p);
      SelectionRule(table, crs, p, cr);
      MappedPhaseIsAPathTo(cr.nominalPhasePaths, p);
    }
  }

  /** `addTerminalPhases`: file the mapped phase of every given result under its to-terminal. */
  method AddTerminalPhases(terminals: Option<set<ConnectivityResult>>, phase: K.SinglePhaseKind,
                           phasesByTerminal: map<TerminalRef, set<K.SinglePhaseKind>>,
                           ghost pairs: set<(TerminalRef, K.SinglePhaseKind)>)
    returns (r: map<TerminalRef, set<K.SinglePhaseKind>>)
    requires phasesByTerminal == Group(pairs)
    ensures terminals.None? ==> r == phasesByTerminal
    ensures terminals.Some? ==> r == Group(pairs + PhasePairs(terminals.value, phase))
  {
    r := phasesByTerminal;
    if terminals.None? {
      return;
    }
    var remaining := terminals.value;
    ghost var done: set<ConnectivityResult> := {};
    assert pairs + PhasePairs(done, phase) == pairs;
    while remaining != {}
      invariant remaining + done == terminals.value && remaining * done == {}
      invariant r == Group(pairs + PhasePairs(done, phase))
      decreases remaining
    {
      var cr :| cr in remaining;
      var mapped := MappedPhase(cr.nominalPhasePaths, phase);
      GroupAdd(pairs + PhasePairs(done, phase), cr.toTerminal, mapped);
      r := r[cr.toTerminal := GetSet(r, cr.toTerminal) + {mapped}];
      assert PhasePairs(done + {cr}, phase) == PhasePairs(done, phase) + {(cr.toTerminal, mapped)};
      assert pairs + PhasePairs(done + {cr}, phase) == (pairs + PhasePairs(done, phase)) + {(cr.toTerminal, mapped)};
      remaining := remaining - {cr};
      done := done + {cr};
    }
    assert done == terminals.value;
  }

  lemma SelectionPairsStep(done: set<K.SinglePhaseKind>, p: K.SinglePhaseKind,
                           terminalsByPhase: map<K.SinglePhaseKind, set<ConnectivityResult>>,
                           otherFeedsByPhase: map<K.SinglePhaseKind, set<ConnectivityResult>>)
    ensures SelectionPairs(done + {p}, terminalsByPhase, otherFeedsByPhase) ==
      SelectionPairs(done, terminalsByPhase, otherFeedsByPhase) + PhasePairs(SelectedFor(p, terminalsByPhase, otherFeedsByPhase), p)
  {
    var l := SelectionPairs(done + {p}, terminalsByPhase, otherFeedsByPhase);
    var r := SelectionPairs(done, terminalsByPhase, otherFeedsByPhase) + PhasePairs(SelectedFor(p, terminalsByPhase, otherFeedsByPhase), p);
    forall x | x in l ensures x in r {
      var q, cr :| q in done + {p} && cr in SelectedFor(q, terminalsByPhase, otherFeedsByPhase) &&
        x == (cr.toTerminal, MappedPhase(cr.nominalPhasePaths, q));
    }
  }

  /** The loop over the processed phases that applies the feed-count rule. */
  method SelectTargets(processed: set<K.SinglePhaseKind>,
                       terminalsByPhase: map<K.SinglePhaseKind, set<ConnectivityResult>>,
                       otherFeedsByPhase: map<K.SinglePhaseKind, set<ConnectivityResult>>)
    returns (targets: map<TerminalRef, set<K.SinglePhaseKind>>)
    ensures targets == Group(SelectionPairs(processed, terminalsByPhase, otherFeedsByPhase))
  {
    targets := map[];
    var remaining := processed;
    ghost var done: set<K.SinglePhaseKind> := {};
    assert SelectionPairs(done, terminalsByPhase, otherFeedsByPhase) == {};
    while remaining != {}
      invariant remaining + done == processed && remaining * done == {}
      invariant targets == Group(SelectionPairs(done, terminalsByPhase, otherFeedsByPhase))
      decreases remaining
    {
      var p :| p in remaining;
      ghost var before := SelectionPairs(done, terminalsByPhase, otherFeedsByPhase);
      SelectionPairsStep(done, p, terminalsByPhase, otherFeedsByPhase);
      var feeds := GetSet(otherFeedsByPhase, p);
      if feeds == {} {
        var listed := if p in terminalsByPhase then Some(terminalsByPhase[p]) else None;
        targets := AddTerminalPhases(listed, p, targets, before);
        if listed.None? {
          assert PhasePairs({}, p) == {};
          assert before + PhasePairs(SelectedFor(p, terminalsByPhase, otherFeedsByPhase), p) == before;
        }
      } else if |feeds| == 1 {
        targets := AddTerminalPhases(Some(feeds), p, targets, before);
      } else {
        assert PhasePairs({}, p) == {};
        assert before + PhasePairs(SelectedFor(p, terminalsByPhase, otherFeedsByPhase), p) == before;
      }
      remaining := remaining - {p};
      done := done + {p};
    }
    assert done == processed;
  }

  // ---------------------------------------------------------------------
  // Ebbing IN on the selected terminals and queueing their siblings
  // ---------------------------------------------------------------------

  /** The items queued after `t` was ebbed: one per other terminal of its equipment, carrying `had`. */
  function Siblings(ts: seq<TerminalRef>, t: TerminalRef, had: set<K.SinglePhaseKind>): (r: seq<EbbPhases>)
    ensures forall x :: x in r <==> x.terminal in ts && x.terminal != t && x.nominalPhasesToEbb == had
    ensures |r| <= |ts|
  {
    if ts == [] then []
    else Siblings(ts[..|ts| - 1], t, had) + (if ts[|ts| - 1] != t then [EbbPhases(ts[|ts| - 1], had)] else [])
  }

  /** The `forEach` over the equipment's terminals that adds to the traversal queue. */
  method QueueSiblings(ts: seq<TerminalRef>, t: TerminalRef, had: set<K.SinglePhaseKind>) returns (r: seq<EbbPhases>)
    ensures r == Siblings(ts, t, had)
  {
    r := [];
    var i := 0;
    while i < |ts|
      invariant 0 <= i <= |ts|
      invariant r == Siblings(ts[..i], t, had)
    {
      assert ts[..i + 1][..i] == ts[..i];
      if ts[i] != t {
        r := r + [EbbPhases(ts[i], had)];
      }
      i := i + 1;
    }
    assert ts[..i] == ts;
  }

  /** The table after removing `direction` from every target terminal's target phases. */
  function AfterEbbAll(table: Table, targets: map<TerminalRef, set<K.SinglePhaseKind>>, direction: PhaseDirection): (r: Table)
    requires TableWellFormed(table)
    ensures TableWellFormed(r)
  {
    map k | k in table :: if k.0 in targets && k.1 in targets[k.0] then Removed(table[k], direction) else table[k]
  }

  /** The targets already handled. */
  function Restrict(targets: map<TerminalRef, set<K.SinglePhaseKind>>, done: set<TerminalRef>): map<TerminalRef, set<K.SinglePhaseKind>>
  {
    map t | t in targets && t in done :: targets[t]
  }

  lemma AfterEbbAllNothing(table: Table, targets: map<TerminalRef, set<K.SinglePhaseKind>>, direction: PhaseDirection)
    requires TableWellFormed(table)
    ensures AfterEbbAll(table, Restrict(targets, {}), direction) == table
  {
    assert Restrict(targets, {}) == map[];
  }

  /** Targets other than `t` leave `t`'s keys alone. */
  lemma AfterEbbAllLookup(table: Table, targets: map<TerminalRef, set<K.SinglePhaseKind>>, t: TerminalRef, p: K.SinglePhaseKind, direction: PhaseDirection)
    requires TableWellFormed(table) && t !in targets
    ensures Lookup(AfterEbbAll(table, targets, direction), (t, p)) == Lookup(table, (t, p))
  {
  }

  lemma AfterEbbAllEmpty(table: Table, direction: PhaseDirection)
    requires TableWellFormed(table)
    ensures AfterEbbAll(table, map[], direction) == table
  {
  }

  /**
   * Handling one more target: its own keys were not touched by the targets
   * before it, and ebbing them extends the handled set by one terminal.
   */
  lemma AfterEbbAllStep(table: Table, targets: map<TerminalRef, set<K.SinglePhaseKind>>, done: set<TerminalRef>,
                        t: TerminalRef, direction: PhaseDirection)
    requires TableWellFormed(table) && t in targets && t !in done
    ensures Ebbed(AfterEbbAll(table, Restrict(targets, done), direction), t, targets[t], direction) ==
      Ebbed(table, t, targets[t], direction)
    ensures AfterEbb(AfterEbbAll(table, Restrict(targets, done), direction), t, targets[t], direction) ==
      AfterEbbAll(table, Restrict(targets, done + {t}), direction)
  {
    var before := Restrict(targets, done);
    var cur := AfterEbbAll(table, before, direction);
    forall p ensures Ebbs(cur, t, p, direction) == Ebbs(table, t, p, direction) {
      AfterEbbAllLookup(table, before, t, p, direction);
    }
    AfterEbbAllExtend(table, before, Restrict(targets, done + {t}), t, targets[t], direction);
  }

  lemma AfterEbbAllExtend(table: Table, before: map<TerminalRef, set<K.SinglePhaseKind>>, after: map<TerminalRef, set<K.SinglePhaseKind>>,
                          t: TerminalRef, phases: set<K.SinglePhaseKind>, direction: PhaseDirection)
    requires TableWellFormed(table) && t !in before && after == before[t := phases]
    ensures AfterEbb(AfterEbbAll(table, before, direction), t, phases, direction) == AfterEbbAll(table, after, direction)
  {
    var l, r := AfterEbb(AfterEbbAll(table, before, direction), t, phases, direction), AfterEbbAll(table, after, direction);
    assert l.Keys == r.Keys;
    forall k | k in l ensures l[k] == r[k] {
    }
  }

  /**
   * The item `x` is queued after ebbing IN on target `t`: `x` is another
   * terminal of `t`'s equipment, and carries the phases `t` had IN on.
   */
  ghost predicate Queued(net: Network, table: Table, targets: map<TerminalRef, set<K.SinglePhaseKind>>, t: TerminalRef, x: EbbPhases)
    requires TableWellFormed(table)
  {
    t in targets && t in net.equipmentOf &&
    x.terminal in net.TerminalsOf(net.equipmentOf[t]) && x.terminal != t &&
    x.nominalPhasesToEbb == Ebbed(table, t, targets[t], IN)
  }

  /** The queued items are exactly those queued after the targets in `done`. */
  ghost predicate ItemsCover(net: Network, table: Table, targets: map<TerminalRef, set<K.SinglePhaseKind>>,
                             done: set<TerminalRef>, items: seq<EbbPhases>)
    requires TableWellFormed(table)
  {
    (forall x :: x in items ==> exists t :: t in done && Queued(net, table, targets, t, x)) &&
    (forall t, x :: t in done && Queued(net, table, targets, t, x) ==> x in items)
  }

  lemma ItemsCoverStep(net: Network, table: Table, targets: map<TerminalRef, set<K.SinglePhaseKind>>,
                       done: set<TerminalRef>, items: seq<EbbPhases>, t: TerminalRef, queued: seq<EbbPhases>)
    requires TableWellFormed(table) && ItemsCover(net, table, targets, done, items)
    requires forall x :: x in queued <==> Queued(net, table, targets, t, x)
    ensures ItemsCover(net, table, targets, done + {t}, items + queued)
  {
    forall x | x in items + queued ensures exists u :: u in done + {t} && Queued(net, table, targets, u, x) {
      if x in queued {
        assert Queued(net, table, targets, t, x);
      } else {
        var u :| u in done && Queued(net, table, targets, u, x);
        assert u in done + {t};
      }
    }
  }

  lemma ItemsCoverAll(net: Network, table: Table, targets: map<TerminalRef, set<K.SinglePhaseKind>>, items: seq<EbbPhases>)
    requires TableWellFormed(table) && ItemsCover(net, table, targets, targets.Keys, items)
    ensures forall x :: x in items <==> exists t :: Queued(net, table, targets, t, x)
  {
  }

  lemma RestrictAll(targets: map<TerminalRef, set<K.SinglePhaseKind>>, done: set<TerminalRef>)
    requires done == targets.Keys
    ensures Restrict(targets, done) == targets
  {
  }

  /**
   * The body of that loop for one target: ebb IN on its phases, then queue
   * every other terminal of its equipment with the phases that had IN.
   */
  method EbbTarget(store: TracedPhasesStore, sel: PhaseSelector, net: Network, t: TerminalRef, phases: set<K.SinglePhaseKind>)
    returns (queued: seq<EbbPhases>, ok: bool)
    requires store.Valid()
    modifies store
    ensures store.Valid()
    ensures store.Table(Other(sel)) == old(store.Table(Other(sel)))
    ensures store.Table(sel) == AfterEbb(old(store.Table(sel)), t, phases, IN)
    ensures ok <==> t in net.equipmentOf
    ensures ok ==> queued == Siblings(net.TerminalsOf(net.equipmentOf[t]), t, Ebbed(old(store.Table(sel)), t, phases, IN))
  {
    var hadIn := EbbPhasesAt(store, sel, t, phases, IN);
    if t !in net.equipmentOf {
      return [], false;
    }
    queued := QueueSiblings(net.TerminalsOf(net.equipmentOf[t]), t, hadIn);
    ok := true;
  }

  /**
   * The `phasesByTerminalsToEbbAndQueue.forEach` loop: ebb IN on each
   * target and queue its siblings. A target without equipment stops the
   * step (`Objects.requireNonNull` throws) after its own IN removal.
   */
  method EbbInAndQueue(store: TracedPhasesStore, sel: PhaseSelector, net: Network, targets: map<TerminalRef, set<K.SinglePhaseKind>>)
    returns (items: seq<EbbPhases>, ok: bool)
    requires store.Valid()
    modifies store
    ensures store.Valid()
    ensures store.Table(Other(sel)) == old(store.Table(Other(sel)))
    ensures ok <==> forall t :: t in targets ==> t in net.equipmentOf
    ensures SetBits(store.Table(sel)) <= SetBits(old(store.Table(sel)))
    ensures ok ==> store.Table(sel) == AfterEbbAll(old(store.Table(sel)), targets, IN)
    ensures ok ==> forall x :: x in items <==> exists t :: Queued(net, old(store.Table(sel)), targets, t, x)
    ensures targets == map[] ==> items == [] && store.Table(sel) == old(store.Table(sel))
  {
    ghost var table := store.Table(sel);
    items, ok := [], true;
    var remaining := targets.Keys;
    ghost var done: set<TerminalRef> := {};
    AfterEbbAllNothing(table, targets, IN);
    while remaining != {}
      invariant remaining + done == targets.Keys && remaining * done == {}
      invariant store.Valid()
      invariant store.Table(Other(sel)) == old(store.Table(Other(sel)))
      invariant store.Table(sel) == AfterEbbAll(table, Restrict(targets, done), IN)
      invariant SetBits(store.Table(sel)) <= SetBits(table)
      invariant done <= net.equipmentOf.Keys
      invariant ItemsCover(net, table, targets, done, items)
      invariant done == {} ==> items == []
      decreases remaining
    {
      var t :| t in remaining;
      AfterEbbAllStep(table, targets, done, t, IN);
      ghost var before := store.Table(sel);
      var queued, found := EbbTarget(store, sel, net, t, targets[t]);
      AfterEbbShrinks(before, t, targets[t], IN);
      remaining := remaining - {t};
      if !found {
        ok := false;
        return;
      }
      ItemsCoverStep(net, table, targets, done, items, t, queued);
      items := items + queued;
      done := done + {t};
    }
    RestrictAll(targets, done);
    ItemsCoverAll(net, table, targets, items);
  }

  // ---------------------------------------------------------------------
  // One step of the traversal: ebbOutAndQueue
  // ---------------------------------------------------------------------

  /** No requested phase of `t` has a bit of `direction` left. */
  predicate NoneLeft(table: Table, t: TerminalRef, phases: set<K.SinglePhaseKind>, direction: PhaseDirection)
  {
    forall p :: p in phases ==> Bits(Lookup(table, (t, p)).direction) * Bits(direction) == {}
  }

  /** Clearing bits never brings a cleared one back. */
  lemma NoneLeftKept(table: Table, after: Table, t: TerminalRef, phases: set<K.SinglePhaseKind>, direction: PhaseDirection)
    requires NoneLeft(table, t, phases, direction) && SetBits(after) <= SetBits(table)
    ensures NoneLeft(after, t, phases, direction)
  {
    forall p | p in phases ensures Bits(Lookup(after, (t, p)).direction) * Bits(direction) == {} {
      forall b | b in Bits(Lookup(after, (t, p)).direction) ensures b in Bits(Lookup(table, (t, p)).direction) {
        assert ((t, p), b) in SetBits(after);
      }
    }
  }

  /** With no bit of the direction left, `ebbPhases` reports nothing. */
  lemma NoneLeftEbbsNothing(table: Table, t: TerminalRef, phases: set<K.SinglePhaseKind>, direction: PhaseDirection)
    requires TableWellFormed(table) && NoneLeft(table, t, phases, direction)
    ensures Ebbed(table, t, phases, direction) == {}
  {
    forall p | p in phases ensures !Ebbs(table, t, p, direction) {
      EbbsMeansHadBit(table, t, p, direction);
    }
  }

  /**
   * The terminals and phases one step ebbs IN on, given the table before
   * the step: found with the statuses left after the OUT removal.
   */
  function StepTargets(table: Table, conn: Connectivity, item: EbbPhases): map<TerminalRef, set<K.SinglePhaseKind>>
    requires TableWellFormed(table)
  {
    var processed := Ebbed(table, item.terminal, item.nominalPhasesToEbb, OUT);
    var crs := conn(item.terminal, processed);
    if crs == [] then map[]
    else Targets(AfterEbb(table, item.terminal, item.nominalPhasesToEbb, OUT), crs, processed)
  }

  lemma AfterEbbNoneLeft(table: Table, t: TerminalRef, phases: set<K.SinglePhaseKind>, direction: PhaseDirection)
    requires TableWellFormed(table)
    ensures NoneLeft(AfterEbb(table, t, phases, direction), t, phases, direction)
  {
    forall p | p in phases
      ensures Bits(Lookup(AfterEbb(table, t, phases, direction), (t, p)).direction) * Bits(direction) == {}
    {
      AfterEbbClears(table, t, phases, direction, p);
    }
  }

  /** The maps `ebbOutAndQueue` builds before it ebbs IN. */
  method FindTargets(crs: seq<ConnectivityResult>, table: Table, processed: set<K.SinglePhaseKind>)
    returns (targets: map<TerminalRef, set<K.SinglePhaseKind>>)
    requires TableWellFormed(table)
    ensures targets == Targets(table, crs, processed)
  {
    var terminalsByPhase, otherFeedsByPhase := SortTerminalsByPhase(crs, table);
    targets := SelectTargets(processed, terminalsByPhase, otherFeedsByPhase);
  }

  /** The part of `ebbOutAndQueue` after a non-empty list of connected terminals was found. */
  method SpreadToConnected(store: TracedPhasesStore, sel: PhaseSelector, net: Network,
                           crs: seq<ConnectivityResult>, processed: set<K.SinglePhaseKind>)
    returns (items: seq<EbbPhases>, ok: bool)
    requires store.Valid()
    modifies store
    ensures store.Valid()
    ensures store.Table(Other(sel)) == old(store.Table(Other(sel)))
    ensures ok <==> forall t :: t in Targets(old(store.Table(sel)), crs, processed) ==> t in net.equipmentOf
    ensures ok ==> store.Table(sel) == AfterEbbAll(old(store.Table(sel)), Targets(old(store.Table(sel)), crs, processed), IN)
    ensures ok ==> forall x :: x in items <==> exists t :: Queued(net, old(store.Table(sel)), Targets(old(store.Table(sel)), crs, processed), t, x)
    ensures processed == {} ==> ok && items == [] && store.Table(sel) == old(store.Table(sel))
    ensures SetBits(store.Table(sel)) <= SetBits(old(store.Table(sel)))
  {
    ghost var m := store.Table(sel);
    var targets := FindTargets(crs, store.Table(sel), processed);
    if processed == {} {
      assert SelectionPairs(processed, TerminalsByPhase(crs), OtherFeedsByPhase(m, crs)) == {};
      assert targets == map[];
    }
    items, ok := EbbInAndQueue(store, sel, net, targets);
    if processed == {} {
      AfterEbbAllNothing(m, targets, IN);
    }
  }

  /**
   * `ebbOutAndQueue`: clear OUT on the item's phases, find the connected
   * terminals through the phases that had it, select the ones to ebb by
   * the feed-count rule, clear IN on them and queue their siblings.
   */
  method EbbOutAndQueue(store: TracedPhasesStore, sel: PhaseSelector, net: Network, conn: Connectivity, item: EbbPhases)
    returns (items: seq<EbbPhases>, ok: bool)
    requires store.Valid()
    modifies store
    ensures store.Valid()
    ensures store.Table(Other(sel)) == old(store.Table(Other(sel)))
    ensures ok <==> forall t :: t in StepTargets(old(store.Table(sel)), conn, item) ==> t in net.equipmentOf
    ensures ok ==> (store.Table(sel) ==
      AfterEbbAll(AfterEbb(old(store.Table(sel)), item.terminal, item.nominalPhasesToEbb, OUT),
                  StepTargets(old(store.Table(sel)), conn, item), IN))
    ensures ok ==> forall x :: x in items <==> exists t ::
      Queued(net, AfterEbb(old(store.Table(sel)), item.terminal, item.nominalPhasesToEbb, OUT),
             StepTargets(old(store.Table(sel)), conn, item), t, x)
    ensures Ebbed(old(store.Table(sel)), item.terminal, item.nominalPhasesToEbb, OUT) == {} ==>
      ok && items == [] && store.Table(sel) == old(store.Table(sel))
    ensures Ebbed(old(store.Table(sel)), item.terminal, item.nominalPhasesToEbb, OUT) != {} ==>
      SetBits(store.Table(sel)) < SetBits(old(store.Table(sel)))
    ensures SetBits(store.Table(sel)) <= SetBits(old(store.Table(sel)))
    ensures NoneLeft(store.Table(sel), item.terminal, item.nominalPhasesToEbb, OUT)
  {
    ghost var m0 := store.Table(sel);
    var processed := EbbPhasesAt(store, sel, item.terminal, item.nominalPhasesToEbb, OUT);
    AfterEbbShrinks(m0, item.terminal, item.nominalPhasesToEbb, OUT);
    AfterEbbNoneLeft(m0, item.terminal, item.nominalPhasesToEbb, OUT);
    ghost var m1 := store.Table(sel);
    var crs := conn(item.terminal, processed);
    if crs == [] {
      assert StepTargets(m0, conn, item) == map[];
      AfterEbbAllEmpty(m1, IN);
      items, ok := [], true;
      return;
    }
    assert StepTargets(m0, conn, item) == Targets(m1, crs, processed);
    items, ok := SpreadToConnected(store, sel, net, crs, processed);
    NoneLeftKept(m1, store.Table(sel), item.terminal, item.nominalPhasesToEbb, OUT);
  }

  // ---------------------------------------------------------------------
  // The record of a run: which items were processed, against which table
  // ---------------------------------------------------------------------

  /**
   * One processed item: the table it was processed against, the table the
   * step left and the items the step queued.
   */
  datatype StepRecord = StepRecord(item: EbbPhases, before: Table, after: Table, queued: seq<EbbPhases>)

  /** The table a completed `ebbOutAndQueue` of the record's item leaves behind. */
  function StepResult(conn: Connectivity, s: StepRecord): (r: Table)
    requires TableWellFormed(s.before)
    ensures TableWellFormed(r)
  {
    AfterEbbAll(AfterEbb(s.before, s.item.terminal, s.item.nominalPhasesToEbb, OUT),
                StepTargets(s.before, conn, s.item), IN)
  }

  /** The item `x` is one of the items the recorded step queues. */
  ghost predicate StepQueues(net: Network, conn: Connectivity, s: StepRecord, x: EbbPhases)
    requires TableWellFormed(s.before)
  {
    exists t :: Queued(net, AfterEbb(s.before, s.item.terminal, s.item.nominalPhasesToEbb, OUT),
                       StepTargets(s.before, conn, s.item), t, x)
  }

  /** The keys a step may change: the item's own phases, and the phases its targets are ebbed IN on. */
  predicate Touches(conn: Connectivity, s: StepRecord, key: StatusKey)
    requires TableWellFormed(s.before)
  {
    (key.0 == s.item.terminal && key.1 in s.item.nominalPhasesToEbb) ||
    (var targets := StepTargets(s.before, conn, s.item); key.0 in targets && key.1 in targets[key.0])
  }

  /**
   * The record is that of a completed step: the table it left and the
   * items it queued are the step's own. The queue's meaning is only
   * unfolded where a proof names `StepQueues` itself.
   */
  ghost predicate RecordsStep(net: Network, conn: Connectivity, s: StepRecord)
  {
    TableWellFormed(s.before) && s.after == StepResult(conn, s) &&
    forall x {:trigger StepQueues(net, conn, s, x)} :: x in s.queued <==> StepQueues(net, conn, s, x)
  }

  /**
   * Step `k` of the trace. Facts about whole steps are stated through it,
   * so that they are brought in only where a proof names the step.
   */
  ghost function Step(trace: seq<StepRecord>, k: nat): StepRecord
    requires k < |trace|
  {
    trace[k]
  }

  /** The first `n` records of the trace are those of completed steps. */
  ghost predicate StepsRecorded(net: Network, conn: Connectivity, trace: seq<StepRecord>, n: int)
  {
    forall k :: 0 <= k < |trace| && k < n ==> RecordsStep(net, conn, Step(trace, k))
  }

  ghost predicate TablesWellFormed(trace: seq<StepRecord>)
  {
    forall k :: 0 <= k < |trace| ==> TableWellFormed(trace[k].before) && TableWellFormed(trace[k].after)
  }

  /** Each step sees the table the step before it left. */
  ghost predicate Chained(trace: seq<StepRecord>)
  {
    forall k :: 0 <= k < |trace| - 1 ==> trace[k + 1].before == trace[k].after
  }

  /**
   * The item of step `j`. Quantifiers over steps are stated through it so
   * that the index a `ProcessedAfter` witness names does not, by itself,
   * set off `QueuedEarlier` again.
   */
  ghost function ItemOf(trace: seq<StepRecord>, j: nat): EbbPhases
    requires j < |trace|
  {
    trace[j].item
  }

  /** Each item after the first was queued by an earlier step. */
  ghost predicate QueuedEarlier(trace: seq<StepRecord>)
  {
    forall j :: 0 < j < |trace| ==> exists k :: 0 <= k < j && ItemOf(trace, j) in trace[k].queued
  }

  /**
   * The steps of a traversal in the order the engine took them: the start
   * item first, each step on the table the previous one left, every step
   * but the last one completed, and every later item one that an earlier
   * step queued.
   */
  ghost predicate IsTrace(net: Network, conn: Connectivity, start: EbbPhases, trace: seq<StepRecord>)
  {
    |trace| >= 1 && trace[0].item == start && TablesWellFormed(trace) &&
    StepsRecorded(net, conn, trace, |trace| - 1) && Chained(trace) && QueuedEarlier(trace)
  }

  ghost predicate ProcessedAfter(trace: seq<StepRecord>, k: nat, x: EbbPhases)
  {
    exists j :: k < j < |trace| && trace[j].item == x
  }

  /** Every step completed, and every item a step queued is processed by a later step. */
  ghost predicate Closed(net: Network, conn: Connectivity, trace: seq<StepRecord>)
  {
    StepsRecorded(net, conn, trace, |trace|) &&
    forall k, x :: 0 <= k < |trace| && x in trace[k].queued ==> ProcessedAfter(trace, k, x)
  }

  /** The table the last step of a trace left. */
  ghost function Final(trace: seq<StepRecord>): Table
    requires |trace| >= 1
  {
    trace[|trace| - 1].after
  }

  /** A traversal that drained its queue, ending on `final`. */
  ghost predicate Completed(net: Network, conn: Connectivity, start: EbbPhases, trace: seq<StepRecord>, final: Table)
  {
    IsTrace(net, conn, start, trace) && Closed(net, conn, trace) && final == Final(trace)
  }

  lemma AfterEbbAllShrinks(table: Table, targets: map<TerminalRef, set<K.SinglePhaseKind>>, direction: PhaseDirection)
    requires TableWellFormed(table)
    ensures SetBits(AfterEbbAll(table, targets, direction)) <= SetBits(table)
  {
    var after := AfterEbbAll(table, targets, direction);
    forall x | x in SetBits(after) ensures x in SetBits(table) {
      assert x.0 in after && x.1 in Bits(after[x.0].direction);
    }
  }

  lemma StepResultShrinks(conn: Connectivity, s: StepRecord)
    requires TableWellFormed(s.before)
    ensures SetBits(StepResult(conn, s)) <= SetBits(s.before)
  {
    AfterEbbShrinks(s.before, s.item.terminal, s.item.nominalPhasesToEbb, OUT);
    AfterEbbAllShrinks(AfterEbb(s.before, s.item.terminal, s.item.nominalPhasesToEbb, OUT),
                       StepTargets(s.before, conn, s.item), IN);
  }

  /** Bits only disappear along a completed trace: the last table has no bit step `k` did not leave. */
  lemma {:induction false} TraceShrinks(net: Network, conn: Connectivity, trace: seq<StepRecord>, k: nat)
    requires |trace| >= 1 && Chained(trace) && StepsRecorded(net, conn, trace, |trace|) && k < |trace|
    ensures SetBits(Final(trace)) <= SetBits(trace[k].after)
    decreases |trace| - k
  {
    if k < |trace| - 1 {
      TraceShrinks(net, conn, trace, k + 1);
      assert RecordsStep(net, conn, Step(trace, k + 1));
      StepResultShrinks(conn, trace[k + 1]);
    }
  }

  /** (a) Every processed item ends with none of its phases feeding OUT. */
  lemma CompletedClearsOut(net: Network, conn: Connectivity, start: EbbPhases, trace: seq<StepRecord>, final: Table, k: nat)
    requires Completed(net, conn, start, trace, final) && k < |trace|
    ensures NoneLeft(final, trace[k].item.terminal, trace[k].item.nominalPhasesToEbb, OUT)
  {
    var s := Step(trace, k);
    assert RecordsStep(net, conn, s);
    var out := AfterEbb(s.before, s.item.terminal, s.item.nominalPhasesToEbb, OUT);
    AfterEbbNoneLeft(s.before, s.item.terminal, s.item.nominalPhasesToEbb, OUT);
    AfterEbbAllShrinks(out, StepTargets(s.before, conn, s.item), IN);
    NoneLeftKept(out, s.after, s.item.terminal, s.item.nominalPhasesToEbb, OUT);
    TraceShrinks(net, conn, trace, k);
    NoneLeftKept(s.after, final, s.item.terminal, s.item.nominalPhasesToEbb, OUT);
  }

  /** Every terminal a processed step selects ends with none of its selected phases fed IN. */
  lemma CompletedClearsIn(net: Network, conn: Connectivity, start: EbbPhases, trace: seq<StepRecord>, final: Table,
                          k: nat, t: TerminalRef)
    requires Completed(net, conn, start, trace, final) && k < |trace|
    requires t in StepTargets(trace[k].before, conn, trace[k].item)
    ensures NoneLeft(final, t, StepTargets(trace[k].before, conn, trace[k].item)[t], IN)
  {
    var s := Step(trace, k);
    assert RecordsStep(net, conn, s);
    var targets := StepTargets(s.before, conn, s.item);
    var out := AfterEbb(s.before, s.item.terminal, s.item.nominalPhasesToEbb, OUT);
    forall p | p in targets[t] ensures Bits(Lookup(s.after, (t, p)).direction) * Bits(IN) == {} {
      if (t, p) in out {
        assert Lookup(s.after, (t, p)) == Removed(out[(t, p)], IN);
      }
    }
    TraceShrinks(net, conn, trace, k);
    NoneLeftKept(s.after, final, t, targets[t], IN);
  }

  /** A completed traversal only clears bits of the table it began on. */
  lemma CompletedShrinks(net: Network, conn: Connectivity, start: EbbPhases, trace: seq<StepRecord>, final: Table)
    requires Completed(net, conn, start, trace, final)
    ensures SetBits(final) <= SetBits(trace[0].before)
  {
    TraceShrinks(net, conn, trace, 0);
    assert RecordsStep(net, conn, Step(trace, 0));
    StepResultShrinks(conn, trace[0]);
  }

  /**
   * A status whose only bits were of `direction`, and which has none of
   * them left in a table that cleared bits only, is cleared.
   */
  lemma OnlyDirectionCleared(table: Table, final: Table, key: StatusKey, direction: PhaseDirection)
    requires TableWellFormed(final) && SetBits(final) <= SetBits(table)
    requires Bits(Lookup(table, key).direction) <= Bits(direction)
    requires Bits(Lookup(final, key).direction) * Bits(direction) == {}
    ensures Lookup(final, key) == Cleared
  {
    if key in final {
      var d := final[key].direction;
      forall b | b in Bits(d) ensures b in Bits(Lookup(table, key).direction) {
        assert (key, b) in SetBits(final);
      }
      BitsInjective(d, PhaseDirection.NONE);
    }
  }

  lemma StepFrame(conn: Connectivity, s: StepRecord, key: StatusKey)
    requires TableWellFormed(s.before) && !Touches(conn, s, key)
    ensures Lookup(StepResult(conn, s), key) == Lookup(s.before, key)
  {
  }

  lemma {:induction false} UntouchedPrefix(net: Network, conn: Connectivity, trace: seq<StepRecord>, key: StatusKey, n: nat)
    requires |trace| >= 1 && Chained(trace) && StepsRecorded(net, conn, trace, |trace|) && n < |trace|
    requires forall k :: 0 <= k < |trace| ==> TableWellFormed(trace[k].before) && !Touches(conn, trace[k], key)
    ensures Lookup(trace[n].after, key) == Lookup(trace[0].before, key)
  {
    assert RecordsStep(net, conn, Step(trace, n));
    StepFrame(conn, trace[n], key);
    if n > 0 {
      UntouchedPrefix(net, conn, trace, key, n - 1);
    }
  }

  /** (c) A status no processed step touches keeps the value it had when the traversal began. */
  lemma UntouchedKept(net: Network, conn: Connectivity, start: EbbPhases, trace: seq<StepRecord>, final: Table, key: StatusKey)
    requires Completed(net, conn, start, trace, final)
    requires forall k :: 0 <= k < |trace| ==> !Touches(conn, trace[k], key)
    ensures Lookup(final, key) == Lookup(trace[0].before, key)
  {
    UntouchedPrefix(net, conn, trace, key, |trace| - 1);
  }

  // ---------------------------------------------------------------------
  // The traversal and the run overloads
  // ---------------------------------------------------------------------

  /**
   * The engine's choice of the next item: an index into the non-empty
   * queue. The weighted priority queue's policy is one such choice; the
   * properties below hold for every choice.
   */
  type Pick = seq<EbbPhases> -> nat

  ghost predicate PicksInRange(pick: Pick)
  {
    forall q :: q != [] ==> pick(q) < |q|
  }

  lemma DropPicked(queue: seq<EbbPhases>, i: nat, x: EbbPhases)
    requires i < |queue| && x in queue && x != queue[i]
    ensures x in queue[..i] + queue[i + 1..]
  {
    assert queue == queue[..i] + [queue[i]] + queue[i + 1..];
  }

  /**
   * The queue of a traversal in progress: every processed step completed,
   * every queued item was queued by a processed step, and every item a
   * processed step queued is still queued or was processed after that step.
   */
  ghost predicate Pending(net: Network, conn: Connectivity, trace: seq<StepRecord>, queue: seq<EbbPhases>)
  {
    StepsRecorded(net, conn, trace, |trace|) &&
    (trace != [] ==> forall x :: x in queue ==> exists k :: 0 <= k < |trace| && x in trace[k].queued) &&
    (forall k, x :: 0 <= k < |trace| && x in trace[k].queued ==> x in queue || ProcessedAfter(trace, k, x))
  }

  lemma StepsRecordedAppend(net: Network, conn: Connectivity, trace: seq<StepRecord>, rec: StepRecord)
    requires StepsRecorded(net, conn, trace, |trace|)
    ensures StepsRecorded(net, conn, trace + [rec], |trace|)
    ensures RecordsStep(net, conn, rec) ==> StepsRecorded(net, conn, trace + [rec], |trace| + 1)
  {
    var trace' := trace + [rec];
    forall k | 0 <= k < |trace| ensures RecordsStep(net, conn, Step(trace', k)) {
      assert Step(trace', k) == Step(trace, k);
    }
    assert Step(trace', |trace|) == rec;
  }

  /** Processing the picked item on the table the trace left extends the trace. */
  lemma TraceExtends(net: Network, conn: Connectivity, start: EbbPhases, trace: seq<StepRecord>, queue: seq<EbbPhases>,
                     i: nat, rec: StepRecord)
    requires Pending(net, conn, trace, queue) && i < |queue| && rec.item == queue[i]
    requires TableWellFormed(rec.before) && TableWellFormed(rec.after)
    requires trace == [] ==> queue == [start]
    requires trace != [] ==> IsTrace(net, conn, start, trace) && rec.before == Final(trace)
    ensures IsTrace(net, conn, start, trace + [rec])
  {
    var trace' := trace + [rec];
    assert forall k :: 0 <= k < |trace| ==> trace'[k] == trace[k];
    StepsRecordedAppend(net, conn, trace, rec);
    forall j | 0 < j < |trace'| ensures exists k :: 0 <= k < j && ItemOf(trace', j) in trace'[k].queued {
      if j < |trace| {
        var k :| 0 <= k < j && ItemOf(trace, j) in trace[k].queued;
        assert trace'[k] == trace[k] && ItemOf(trace', j) == ItemOf(trace, j);
      } else {
        assert rec.item in queue;
        var k :| 0 <= k < |trace| && rec.item in trace[k].queued;
        assert trace'[k] == trace[k] && ItemOf(trace', j) == rec.item;
      }
    }
  }

  /** After a completed step, the queue less the picked item, plus the items it queued, is pending. */
  lemma PendingExtends(net: Network, conn: Connectivity, trace: seq<StepRecord>, queue: seq<EbbPhases>,
                       i: nat, rec: StepRecord)
    requires Pending(net, conn, trace, queue) && i < |queue| && rec.item == queue[i] && RecordsStep(net, conn, rec)
    requires trace == [] ==> |queue| == 1
    ensures Pending(net, conn, trace + [rec], queue[..i] + queue[i + 1..] + rec.queued)
  {
    var trace', rest := trace + [rec], queue[..i] + queue[i + 1..];
    assert forall k :: 0 <= k < |trace| ==> trace'[k] == trace[k];
    StepsRecordedAppend(net, conn, trace, rec);
    forall k, x | 0 <= k < |trace'| && x in trace'[k].queued
      ensures x in rest + rec.queued || ProcessedAfter(trace', k, x)
    {
      if k == |trace| {
        assert x in rec.queued;
      } else if ProcessedAfter(trace, k, x) {
        var j :| k < j < |trace| && trace[j].item == x;
        assert trace'[j] == trace[j];
      } else if x == rec.item {
        assert trace'[|trace|].item == x;
      } else {
        DropPicked(queue, i, x);
      }
    }
    forall x | x in rest + rec.queued ensures exists k :: 0 <= k < |trace'| && x in trace'[k].queued {
      if x in rec.queued {
        assert x in trace'[|trace|].queued;
      } else {
        assert |rest| == |queue| - 1 && trace != [];
        assert x in queue by {
          var m :| 0 <= m < |rest| && rest[m] == x;
          if m < i { assert queue[m] == x; } else { assert queue[m + 1] == x; }
        }
        var k :| 0 <= k < |trace| && x in trace[k].queued;
        assert trace'[k] == trace[k];
      }
    }
  }

  /** One step of the traversal keeps the loop's invariant: the trace grows by the step, and on success the queue stays pending. */
  lemma StepKeepsTrace(net: Network, conn: Connectivity, start: EbbPhases, table: Table, trace: seq<StepRecord>,
                       queue: seq<EbbPhases>, i: nat, rec: StepRecord, ok: bool)
    requires i < |queue| && rec.item == queue[i] && TableWellFormed(rec.before) && TableWellFormed(rec.after)
    requires trace == [] ==> queue == [start] && rec.before == table
    requires trace != [] ==> IsTrace(net, conn, start, trace) && trace[0].before == table && rec.before == Final(trace)
    requires Pending(net, conn, trace, queue)
    requires forall k :: 0 <= k < |trace| ==>
      NoneLeft(rec.before, trace[k].item.terminal, trace[k].item.nominalPhasesToEbb, OUT)
    requires SetBits(rec.after) <= SetBits(rec.before)
    requires NoneLeft(rec.after, rec.item.terminal, rec.item.nominalPhasesToEbb, OUT)
    requires ok ==> RecordsStep(net, conn, rec)
    ensures IsTrace(net, conn, start, trace + [rec]) && (trace + [rec])[0].before == table && Final(trace + [rec]) == rec.after
    ensures forall k :: 0 <= k < |trace + [rec]| ==>
      NoneLeft(rec.after, (trace + [rec])[k].item.terminal, (trace + [rec])[k].item.nominalPhasesToEbb, OUT)
    ensures ok ==> Pending(net, conn, trace + [rec], queue[..i] + queue[i + 1..] + rec.queued)
  {
    var trace' := trace + [rec];
    TraceExtends(net, conn, start, trace, queue, i, rec);
    forall k | 0 <= k < |trace'|
      ensures NoneLeft(rec.after, trace'[k].item.terminal, trace'[k].item.nominalPhasesToEbb, OUT)
    {
      if k < |trace| {
        assert trace'[k] == trace[k];
        NoneLeftKept(rec.before, rec.after, trace[k].item.terminal, trace[k].item.nominalPhasesToEbb, OUT);
      }
    }
    if ok {
      PendingExtends(net, conn, trace, queue, i, rec);
    }
  }

  /**
   * `traversal.reset().run(start)`: process items until the queue is empty;
   * each step is `ebbOutAndQueue`, and a failing step ends the run. The
   * tracker is keyed on item identity and every queued item is a fresh
   * object, so it never turns an item away. The run ends because each
   * step either clears a status bit or shrinks the queue. `trace` records
   * the processed items in order with the table each one saw.
   */
  method RunTraversal(store: TracedPhasesStore, sel: PhaseSelector, net: Network, conn: Connectivity, pick: Pick, start: EbbPhases)
    returns (ok: bool, ghost trace: seq<StepRecord>)
    requires store.Valid() && PicksInRange(pick)
    modifies store
    ensures store.Valid()
    ensures store.Table(Other(sel)) == old(store.Table(Other(sel)))
    ensures SetBits(store.Table(sel)) <= SetBits(old(store.Table(sel)))
    ensures IsTrace(net, conn, start, trace) && trace[0].before == old(store.Table(sel)) &&
            Final(trace) == store.Table(sel)
    ensures ok ==> Completed(net, conn, start, trace, store.Table(sel))
    ensures forall k :: 0 <= k < |trace| ==>
      NoneLeft(store.Table(sel), trace[k].item.terminal, trace[k].item.nominalPhasesToEbb, OUT)
    ensures NoneLeft(old(store.Table(sel)), start.terminal, start.nominalPhasesToEbb, OUT) ==>
      ok && |trace| == 1 && store.Table(sel) == old(store.Table(sel))
  {
    ghost var table := store.Table(sel);
    ghost var idle := NoneLeft(table, start.terminal, start.nominalPhasesToEbb, OUT);
    var queue := [start];
    ok := true;
    trace := [];
    while queue != []
      invariant store.Valid()
      invariant store.Table(Other(sel)) == old(store.Table(Other(sel)))
      invariant SetBits(store.Table(sel)) <= SetBits(table)
      invariant trace == [] ==> queue == [start] && store.Table(sel) == table
      invariant trace != [] ==> IsTrace(net, conn, start, trace) && trace[0].before == table &&
                                store.Table(sel) == Final(trace)
      invariant Pending(net, conn, trace, queue)
      invariant forall k :: 0 <= k < |trace| ==>
        NoneLeft(store.Table(sel), trace[k].item.terminal, trace[k].item.nominalPhasesToEbb, OUT)
      invariant idle ==> store.Table(sel) == table && |trace| <= 1 && (queue == [] || (queue == [start] && trace == []))
      decreases SetBits(store.Table(sel)), |queue|
    {
      var i := pick(queue);
      var current := queue[i];
      ghost var before := store.Table(sel);
      if idle {
        NoneLeftEbbsNothing(table, start.terminal, start.nominalPhasesToEbb, OUT);
      }
      var next, stepOk := EbbOutAndQueue(store, sel, net, conn, current);
      ghost var rec := StepRecord(current, before, store.Table(sel), next);
      assert stepOk ==> RecordsStep(net, conn, rec);
      StepKeepsTrace(net, conn, start, table, trace, queue, i, rec, stepOk);
      trace := trace + [rec];
      if !stepOk {
        ok := false;
        return;
      }
      queue := queue[..i] + queue[i + 1..] + next;
    }
  }

  /** The two traversals of one `run(terminal, phases)` call and the tables they ended on. */
  datatype RunRecord = RunRecord(normal: seq<StepRecord>, normalAfter: Table, current: seq<StepRecord>, currentAfter: Table)

  /** Both traversals from `start` drained their queues. */
  ghost predicate RunCompleted(net: Network, conn: Connectivity, start: EbbPhases, r: RunRecord)
  {
    Completed(net, conn, start, r.normal, r.normalAfter) &&
    Completed(net, conn, start, r.current, r.currentAfter)
  }

  /**
   * `run(terminal, phases)`: ebb the normal state, then the current state,
   * from the same start item. A failing normal run throws before the
   * current run starts.
   */
  method Run(store: TracedPhasesStore, net: Network, conn: Connectivity, pick: Pick, terminal: TerminalRef, phases: set<K.SinglePhaseKind>)
    returns (ok: bool, ghost run: RunRecord)
    requires store.Valid() && PicksInRange(pick)
    modifies store
    ensures store.Valid()
    ensures SetBits(store.Table(NormalPhases)) <= SetBits(old(store.Table(NormalPhases)))
    ensures SetBits(store.Table(CurrentPhases)) <= SetBits(old(store.Table(CurrentPhases)))
    ensures NoneLeft(store.Table(NormalPhases), terminal, phases, OUT)
    ensures ok ==> NoneLeft(store.Table(CurrentPhases), terminal, phases, OUT)
    ensures ok ==> (RunCompleted(net, conn, EbbPhases(terminal, phases), run) &&
      run.normal[0].before == old(store.Table(NormalPhases)) && run.normalAfter == store.Table(NormalPhases) &&
      run.current[0].before == old(store.Table(CurrentPhases)) && run.currentAfter == store.Table(CurrentPhases))
    ensures NoneLeft(old(store.Table(NormalPhases)), terminal, phases, OUT) &&
            NoneLeft(old(store.Table(CurrentPhases)), terminal, phases, OUT) ==>
      ok && store.Table(NormalPhases) == old(store.Table(NormalPhases)) &&
      store.Table(CurrentPhases) == old(store.Table(CurrentPhases))
  {
    var start := EbbPhases(terminal, phases);
    ghost var normal, current;
    ok, normal := RunTraversal(store, NormalPhases, net, conn, pick, start);
    ghost var normalAfter := store.Table(NormalPhases);
    if !ok {
      run := RunRecord(normal, normalAfter, [], map[]);
      return;
    }
    ok, current := RunTraversal(store, CurrentPhases, net, conn, pick, start);
    run := RunRecord(normal, normalAfter, current, store.Table(CurrentPhases));
  }

  /** The phases `run(terminal)` ebbs: the terminal's own single phases. */
  function TerminalPhases(net: Network, t: TerminalRef): set<K.SinglePhaseKind>
  {
    SetOf(SinglePhases(net.PhasesOf(t)))
  }

  /** `run(terminal)`. */
  method RunTerminal(store: TracedPhasesStore, net: Network, conn: Connectivity, pick: Pick, terminal: TerminalRef)
    returns (ok: bool, ghost run: RunRecord)
    requires store.Valid() && PicksInRange(pick)
    modifies store
    ensures store.Valid()
    ensures SetBits(store.Table(NormalPhases)) <= SetBits(old(store.Table(NormalPhases)))
    ensures SetBits(store.Table(CurrentPhases)) <= SetBits(old(store.Table(CurrentPhases)))
    ensures NoneLeft(store.Table(NormalPhases), terminal, TerminalPhases(net, terminal), OUT)
    ensures ok ==> NoneLeft(store.Table(CurrentPhases), terminal, TerminalPhases(net, terminal), OUT)
    ensures ok ==> (RunCompleted(net, conn, EbbPhases(terminal, TerminalPhases(net, terminal)), run) &&
      run.normal[0].before == old(store.Table(NormalPhases)) && run.normalAfter == store.Table(NormalPhases) &&
      run.current[0].before == old(store.Table(CurrentPhases)) && run.currentAfter == store.Table(CurrentPhases))
  {
    ok, run := Run(store, net, conn, pick, terminal, TerminalPhases(net, terminal));
  }

  /** The first `n` terminals of the list have none of their given phases feeding OUT in either table. */
  predicate AllClearedIn(normal: Table, current: Table, ts: seq<TerminalRef>, n: nat, phasesOf: TerminalRef -> set<K.SinglePhaseKind>)
  {
    n <= |ts| &&
    forall j :: 0 <= j < n ==>
      NoneLeft(normal, ts[j], phasesOf(ts[j]), OUT) && NoneLeft(current, ts[j], phasesOf(ts[j]), OUT)
  }

  /** Every terminal of the list has none of its given phases feeding OUT in either state. */
  predicate AllCleared(store: TracedPhasesStore, ts: seq<TerminalRef>, phasesOf: TerminalRef -> set<K.SinglePhaseKind>)
    reads store
  {
    AllClearedIn(store.Table(NormalPhases), store.Table(CurrentPhases), ts, |ts|, phasesOf)
  }

  lemma AllClearedStep(normal: Table, current: Table, normal': Table, current': Table,
                       ts: seq<TerminalRef>, i: nat, phasesOf: TerminalRef -> set<K.SinglePhaseKind>)
    requires i < |ts| && AllClearedIn(normal, current, ts, i, phasesOf)
    requires SetBits(normal') <= SetBits(normal) && SetBits(current') <= SetBits(current)
    requires NoneLeft(normal', ts[i], phasesOf(ts[i]), OUT) && NoneLeft(current', ts[i], phasesOf(ts[i]), OUT)
    ensures AllClearedIn(normal', current', ts, i + 1, phasesOf)
  {
    forall j | 0 <= j < i
      ensures NoneLeft(normal', ts[j], phasesOf(ts[j]), OUT) && NoneLeft(current', ts[j], phasesOf(ts[j]), OUT)
    {
      NoneLeftKept(normal, normal', ts[j], phasesOf(ts[j]), OUT);
      NoneLeftKept(current, current', ts[j], phasesOf(ts[j]), OUT);
    }
  }

  /**
   * The runs of the equipment overloads for the first `n` terminals: each
   * completed both traversals, the first started on `normal0` and
   * `current0`, and each later one on the tables the one before it left.
   */
  ghost predicate RunsChained(net: Network, conn: Connectivity, ts: seq<TerminalRef>, n: nat,
                              phasesOf: TerminalRef -> set<K.SinglePhaseKind>,
                              runs: seq<RunRecord>, normal0: Table, current0: Table)
  {
    |runs| == n <= |ts| &&
    (forall i :: 0 <= i < n ==> RunCompleted(net, conn, EbbPhases(ts[i], phasesOf(ts[i])), runs[i])) &&
    (0 < n ==> runs[0].normal[0].before == normal0 && runs[0].current[0].before == current0) &&
    (forall i :: 0 < i < n ==>
      runs[i].normal[0].before == runs[i - 1].normalAfter && runs[i].current[0].before == runs[i - 1].currentAfter)
  }

  lemma RunsChainedStep(net: Network, conn: Connectivity, ts: seq<TerminalRef>, i: nat, phasesOf: TerminalRef -> set<K.SinglePhaseKind>,
                        runs: seq<RunRecord>, run: RunRecord, normal0: Table, current0: Table)
    requires i < |ts| && RunsChained(net, conn, ts, i, phasesOf, runs, normal0, current0)
    requires RunCompleted(net, conn, EbbPhases(ts[i], phasesOf(ts[i])), run)
    requires run.normal[0].before == (if i == 0 then normal0 else runs[i - 1].normalAfter)
    requires run.current[0].before == (if i == 0 then current0 else runs[i - 1].currentAfter)
    ensures RunsChained(net, conn, ts, i + 1, phasesOf, runs + [run], normal0, current0)
  {
    var runs' := runs + [run];
    forall j | 0 <= j < i + 1 ensures RunCompleted(net, conn, EbbPhases(ts[j], phasesOf(ts[j])), runs'[j]) {
      if j < i {
        assert runs'[j] == runs[j];
      }
    }
    forall j | 0 < j < i + 1
      ensures runs'[j].normal[0].before == runs'[j - 1].normalAfter && runs'[j].current[0].before == runs'[j - 1].currentAfter
    {
      assert runs'[j - 1] == runs[j - 1];
      if j < i {
        assert runs'[j] == runs[j];
      }
    }
  }

  /**
   * The equipment overloads: `run` once per terminal of the equipment, with
   * each terminal's own phases (`run(equipment)`) or with the given phases
   * (`run(equipment, phases)`). A failing run ends the loop.
   */
  method RunEachTerminal(store: TracedPhasesStore, net: Network, conn: Connectivity, pick: Pick,
                         ts: seq<TerminalRef>, phasesOf: TerminalRef -> set<K.SinglePhaseKind>)
    returns (ok: bool, ghost runs: seq<RunRecord>)
    requires store.Valid() && PicksInRange(pick)
    modifies store
    ensures store.Valid()
    ensures SetBits(store.Table(NormalPhases)) <= SetBits(old(store.Table(NormalPhases)))
    ensures SetBits(store.Table(CurrentPhases)) <= SetBits(old(store.Table(CurrentPhases)))
    ensures ok ==> AllCleared(store, ts, phasesOf)
    ensures ok ==> RunsChained(net, conn, ts, |ts|, phasesOf, runs, old(store.Table(NormalPhases)), old(store.Table(CurrentPhases)))
    ensures ok && ts != [] ==>
      store.Table(NormalPhases) == runs[|ts| - 1].normalAfter && store.Table(CurrentPhases) == runs[|ts| - 1].currentAfter
    ensures ts == [] ==> (ok && store.Table(NormalPhases) == old(store.Table(NormalPhases)) &&
      store.Table(CurrentPhases) == old(store.Table(CurrentPhases)))
  {
    ok := true;
    runs := [];
    var i := 0;
    ghost var normal0, current0 := store.Table(NormalPhases), store.Table(CurrentPhases);
    while i < |ts|
      invariant 0 <= i <= |ts|
      invariant store.Valid()
      invariant SetBits(store.Table(NormalPhases)) <= SetBits(normal0)
      invariant SetBits(store.Table(CurrentPhases)) <= SetBits(current0)
      invariant AllClearedIn(store.Table(NormalPhases), store.Table(CurrentPhases), ts, i, phasesOf)
      invariant RunsChained(net, conn, ts, i, phasesOf, runs, normal0, current0)
      invariant i == 0 ==> store.Table(NormalPhases) == normal0 && store.Table(CurrentPhases) == current0
      invariant i > 0 ==> store.Table(NormalPhases) == runs[i - 1].normalAfter && store.Table(CurrentPhases) == runs[i - 1].currentAfter
    {
      ghost var normal, current := store.Table(NormalPhases), store.Table(CurrentPhases);
      ghost var run;
      ok, run := Run(store, net, conn, pick, ts[i], phasesOf(ts[i]));
      if !ok {
        return;
      }
      AllClearedStep(normal, current, store.Table(NormalPhases), store.Table(CurrentPhases), ts, i, phasesOf);
      RunsChainedStep(net, conn, ts, i, phasesOf, runs, run, normal0, current0);
      runs := runs + [run];
      i := i + 1;
    }
  }

  /** `run(equipment)`: each terminal with its own phases. */
  method RunEquipment(store: TracedPhasesStore, net: Network, conn: Connectivity, pick: Pick, e: EquipmentRef)
    returns (ok: bool, ghost runs: seq<RunRecord>)
    requires store.Valid() && PicksInRange(pick)
    modifies store
    ensures store.Valid()
    ensures SetBits(store.Table(NormalPhases)) <= SetBits(old(store.Table(NormalPhases)))
    ensures SetBits(store.Table(CurrentPhases)) <= SetBits(old(store.Table(CurrentPhases)))
    ensures ok ==> AllCleared(store, net.TerminalsOf(e), (t: TerminalRef) => TerminalPhases(net, t))
    ensures ok ==> RunsChained(net, conn, net.TerminalsOf(e), |net.TerminalsOf(e)|, (t: TerminalRef) => TerminalPhases(net, t), runs,
                               old(store.Table(NormalPhases)), old(store.Table(CurrentPhases)))
    ensures ok && net.TerminalsOf(e) != [] ==>
      store.Table(NormalPhases) == runs[|runs| - 1].normalAfter && store.Table(CurrentPhases) == runs[|runs| - 1].currentAfter
  {
    ok, runs := RunEachTerminal(store, net, conn, pick, net.TerminalsOf(e), (t: TerminalRef) => TerminalPhases(net, t));
  }

  /** `run(equipment, phases)`: each terminal with the same phases. */
  method RunEquipmentPhases(store: TracedPhasesStore, net: Network, conn: Connectivity, pick: Pick, e: EquipmentRef,
                            phases: set<K.SinglePhaseKind>)
    returns (ok: bool, ghost runs: seq<RunRecord>)
    requires store.Valid() && PicksInRange(pick)
    modifies store
    ensures store.Valid()
    ensures SetBits(store.Table(NormalPhases)) <= SetBits(old(store.Table(NormalPhases)))
    ensures SetBits(store.Table(CurrentPhases)) <= SetBits(old(store.Table(CurrentPhases)))
    ensures ok ==> AllCleared(store, net.TerminalsOf(e), (t: TerminalRef) => phases)
    ensures ok ==> RunsChained(net, conn, net.TerminalsOf(e), |net.TerminalsOf(e)|, (t: TerminalRef) => phases, runs,
                               old(store.Table(NormalPhases)), old(store.Table(CurrentPhases)))
    ensures ok && net.TerminalsOf(e) != [] ==>
      store.Table(NormalPhases) == runs[|runs| - 1].normalAfter && store.Table(CurrentPhases) == runs[|runs| - 1].currentAfter
  {
    ok, runs := RunEachTerminal(store, net, conn, pick, net.TerminalsOf(e), (t: TerminalRef) => phases);
  }
}
