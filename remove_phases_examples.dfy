/**
 * Phase ebbing on small networks: what a completed run leaves behind on a
 * two-step chain, on a terminal fed from two other places, and on one fed
 * from a single other place. The tables are any tables holding the
 * statuses named; every other status is left free.
 */
module RemovePhasesExamples {
  import K = Phases
  import opened Topology
  import opened PhaseStatus
  import opened ConnectivityResults
  import opened RemovePhases

  // ---------------------------------------------------------------------
  // Facts about traces that the examples share
  // ---------------------------------------------------------------------

  lemma SecondQueuedByFirst(net: Network, conn: Connectivity, trace: seq<StepRecord>)
    requires QueuedEarlier(trace) && |trace| > 1 && RecordsStep(net, conn, trace[0])
    ensures StepQueues(net, conn, trace[0], trace[1].item)
  {
    assert ItemOf(trace, 1) == trace[1].item;
  }

  /** A completed run whose first step queues nothing has that one step only. */
  lemma NothingQueuedOneStep(net: Network, conn: Connectivity, start: EbbPhases, trace: seq<StepRecord>, final: Table)
    requires Completed(net, conn, start, trace, final)
    requires forall x :: !StepQueues(net, conn, trace[0], x)
    ensures |trace| == 1
  {
    if |trace| > 1 {
      assert RecordsStep(net, conn, Step(trace, 0));
      SecondQueuedByFirst(net, conn, trace);
    }
  }

  /** Ebbing OUT on terminal 1's phase A, which has OUT, reports A and leaves every other terminal alone. */
  lemma StartEbbs(table: Table)
    requires TableWellFormed(table) && Lookup(table, (1, K.A)) == Status(K.A, OUT)
    ensures Ebbed(table, 1, {K.A}, OUT) == {K.A}
    ensures forall t :: t != 1 ==> Lookup(AfterEbb(table, 1, {K.A}, OUT), (t, K.A)) == Lookup(table, (t, K.A))
  {
    EbbsMeansHadBit(table, 1, K.A, OUT);
  }

  /** Every terminal the step selects has a phase selected for it. */
  lemma TargetHasPhase(table: Table, crs: seq<ConnectivityResult>, processed: set<K.SinglePhaseKind>, t: TerminalRef)
    returns (q: K.SinglePhaseKind)
    requires TableWellFormed(table) && t in Targets(table, crs, processed)
    ensures q in GetSet(Targets(table, crs, processed), t)
  {
    var pairs := SelectionPairs(processed, TerminalsByPhase(crs), OtherFeedsByPhase(table, crs));
    assert t in Firsts(pairs);
    var x :| x in pairs && x.0 == t;
    GroupMembership(pairs, t, x.1);
    q := x.1;
  }

  /** A step whose selected pairs are exactly one pair selects that terminal for that phase alone. */
  lemma TargetsSingleton(table: Table, crs: seq<ConnectivityResult>, processed: set<K.SinglePhaseKind>,
                         t0: TerminalRef, q0: K.SinglePhaseKind)
    requires TableWellFormed(table)
    requires forall t, q :: q in GetSet(Targets(table, crs, processed), t) <==> t == t0 && q == q0
    ensures Targets(table, crs, processed) == map[t0 := {q0}]
  {
    var targets := Targets(table, crs, processed);
    forall t | t in targets ensures t == t0 {
      var q := TargetHasPhase(table, crs, processed, t);
    }
    assert q0 in GetSet(targets, t0);
    assert targets.Keys == {t0};
    assert targets[t0] == {q0} by {
      forall q ensures q in targets[t0] <==> q == q0 {
        assert q in GetSet(targets, t0) <==> q == q0;
      }
    }
  }

  /** Removing IN from a status fed both ways leaves it feeding OUT. */
  lemma RemoveInFromBoth(p: K.SinglePhaseKind)
    requires p != K.NONE
    ensures Removed(Status(p, BOTH), IN) == Status(p, OUT)
  {
    var r := RemoveStatus(Status(p, BOTH), p, IN).status;
    BitsInjective(r.direction, OUT);
  }

  // ---------------------------------------------------------------------
  // A chain: 1 -> 2, and on through equipment 20 to 3
  // ---------------------------------------------------------------------

  /**
   * Terminal 1 (equipment 10) connects on phase A to terminal 2, whose
   * equipment 20 has a second terminal 3.
   */
  const ChainNet := Network(map[1 := 10, 2 := 20, 3 := 20], map[10 := [1], 20 := [2, 3]], map[])

  const ChainLink := ConnectivityResult(1, 2, [NominalPhasePath(K.A, K.A)])

  function ChainConn(t: TerminalRef, phases: set<K.SinglePhaseKind>): seq<ConnectivityResult>
  {
    if t == 1 && K.A in phases then [ChainLink] else []
  }

  const Start := EbbPhases(1, {K.A})

  /** Phase A energised from 1 towards 2 and on out of 3. */
  predicate ChainState(table: Table)
  {
    TableWellFormed(table) &&
    Lookup(table, (1, K.A)) == Status(K.A, OUT) &&
    Lookup(table, (2, K.A)) == Status(K.A, IN) &&
    Lookup(table, (3, K.A)) == Status(K.A, OUT)
  }

  lemma ChainSelects(table: Table, cr: ConnectivityResult)
    requires ChainState(table)
    ensures var out := AfterEbb(table, 1, {K.A}, OUT);
      cr in SelectedFor(K.A, TerminalsByPhase([ChainLink]), OtherFeedsByPhase(out, [ChainLink])) <==>
      cr == ChainLink
  {
    StartEbbs(table);
    var out := AfterEbb(table, 1, {K.A}, OUT);
    assert !IsOtherFeed(out, ChainLink, ChainLink.nominalPhasePaths[0]);
    assert !HasFeedFrom(out, ChainLink, K.A);
    assert OtherFeeds(out, [ChainLink], K.A) == {};
    SelectionRule(out, [ChainLink], K.A, cr);
    assert ChainLink.nominalPhasePaths[0].from == K.A;
  }

  lemma ChainTargetPairs(table: Table, t: TerminalRef, q: K.SinglePhaseKind)
    requires ChainState(table)
    ensures q in GetSet(Targets(AfterEbb(table, 1, {K.A}, OUT), [ChainLink], {K.A}), t) <==> t == 2 && q == K.A
  {
    var out := AfterEbb(table, 1, {K.A}, OUT);
    forall cr ensures cr in SelectedFor(K.A, TerminalsByPhase([ChainLink]), OtherFeedsByPhase(out, [ChainLink])) <==>
      cr == ChainLink
    {
      ChainSelects(table, cr);
    }
    TargetsMeaning(out, [ChainLink], {K.A}, t, q);
  }

  /** The first step ebbs IN on terminal 2's phase A and nothing else. */
  lemma ChainTargets(table: Table)
    requires ChainState(table)
    ensures StepTargets(table, ChainConn, Start) == map[2 := {K.A}]
  {
    StartEbbs(table);
    var out := AfterEbb(table, 1, {K.A}, OUT);
    assert StepTargets(table, ChainConn, Start) == Targets(out, [ChainLink], {K.A});
    forall t, q ensures q in GetSet(Targets(out, [ChainLink], {K.A}), t) <==> t == 2 && q == K.A {
      ChainTargetPairs(table, t, q);
    }
    TargetsSingleton(out, [ChainLink], {K.A}, 2, K.A);
  }

  /** Once terminal 1 is ebbed, terminal 2 still holds IN on A. */
  lemma ChainEbbsTwo(table: Table)
    requires ChainState(table)
    ensures TableWellFormed(AfterEbb(table, 1, {K.A}, OUT))
    ensures Ebbed(AfterEbb(table, 1, {K.A}, OUT), 2, {K.A}, IN) == {K.A}
  {
    StartEbbs(table);
    EbbsMeansHadBit(AfterEbb(table, 1, {K.A}, OUT), 2, K.A, IN);
  }

  /** After the first step, terminal 3 is queued with phase A. */
  lemma ChainQueuesFarEnd(s: StepRecord)
    requires s.item == Start && ChainState(s.before)
    ensures StepQueues(ChainNet, ChainConn, s, EbbPhases(3, {K.A}))
  {
    ChainTargets(s.before);
    ChainEbbsTwo(s.before);
    var out := AfterEbb(s.before, 1, {K.A}, OUT);
    assert Queued(ChainNet, out, map[2 := {K.A}], 2, EbbPhases(3, {K.A}));
  }

  /** Terminal 3 is processed by a later step of a completed run. */
  lemma ChainReachesFarEnd(trace: seq<StepRecord>, final: Table) returns (j: nat)
    requires Completed(ChainNet, ChainConn, Start, trace, final) && ChainState(trace[0].before)
    ensures 0 < j < |trace| && trace[j].item == EbbPhases(3, {K.A})
  {
    assert RecordsStep(ChainNet, ChainConn, Step(trace, 0));
    ChainQueuesFarEnd(trace[0]);
    assert ProcessedAfter(trace, 0, EbbPhases(3, {K.A}));
    j :| 0 < j < |trace| && trace[j].item == EbbPhases(3, {K.A});
  }

  /** A completed run's final table is well formed and only clears bits of the table it began on. */
  lemma FinalShrinks(net: Network, conn: Connectivity, trace: seq<StepRecord>, final: Table)
    requires Completed(net, conn, Start, trace, final)
    ensures TableWellFormed(final) && SetBits(final) <= SetBits(trace[0].before)
  {
    CompletedShrinks(net, conn, Start, trace, final);
    assert RecordsStep(net, conn, Step(trace, |trace| - 1));
  }

  /**
   * Ebbing A from terminal 1 clears it there, clears the IN it fed into
   * terminal 2, and carries on through equipment 20 to clear terminal 3.
   */
  lemma ChainRunClearsAll(trace: seq<StepRecord>, final: Table)
    requires Completed(ChainNet, ChainConn, Start, trace, final) && ChainState(trace[0].before)
    ensures Lookup(final, (1, K.A)) == Cleared
    ensures Lookup(final, (2, K.A)) == Cleared
    ensures Lookup(final, (3, K.A)) == Cleared
  {
    var table := trace[0].before;
    FinalShrinks(ChainNet, ChainConn, trace, final);
    CompletedClearsOut(ChainNet, ChainConn, Start, trace, final, 0);
    OnlyDirectionCleared(table, final, (1, K.A), OUT);
    ChainTargets(table);
    CompletedClearsIn(ChainNet, ChainConn, Start, trace, final, 0, 2);
    OnlyDirectionCleared(table, final, (2, K.A), IN);
    var j := ChainReachesFarEnd(trace, final);
    CompletedClearsOut(ChainNet, ChainConn, Start, trace, final, j);
    OnlyDirectionCleared(table, final, (3, K.A), OUT);
  }

  // ---------------------------------------------------------------------
  // Two neighbours: 1 -> 2 and 1 -> 4, each on its own equipment
  // ---------------------------------------------------------------------

  const FedNet := Network(map[1 := 10, 2 := 20, 4 := 40], map[10 := [1], 20 := [2], 40 := [4]], map[])

  const LinkTo2 := ConnectivityResult(1, 2, [NominalPhasePath(K.A, K.A)])
  const LinkTo4 := ConnectivityResult(1, 4, [NominalPhasePath(K.A, K.A)])

  function FedConn(t: TerminalRef, phases: set<K.SinglePhaseKind>): seq<ConnectivityResult>
  {
    if t == 1 && K.A in phases then [LinkTo2, LinkTo4] else []
  }

  /** Both neighbours of terminal 1 are still fed from elsewhere on A. */
  predicate DualFedState(table: Table)
  {
    TableWellFormed(table) &&
    Lookup(table, (1, K.A)) == Status(K.A, OUT) &&
    Lookup(table, (2, K.A)) == Status(K.A, BOTH) &&
    Lookup(table, (4, K.A)) == Status(K.A, BOTH)
  }

  /** Only terminal 4 is fed from elsewhere on A; terminal 2 is fed from terminal 1 alone. */
  predicate SingleFedState(table: Table)
  {
    TableWellFormed(table) &&
    Lookup(table, (1, K.A)) == Status(K.A, OUT) &&
    Lookup(table, (2, K.A)) == Status(K.A, IN) &&
    Lookup(table, (4, K.A)) == Status(K.A, BOTH)
  }

  /** With both neighbours still fed, ebbing A from terminal 1 goes no further. */
  lemma DualFeedTargetsNothing(table: Table)
    requires DualFedState(table)
    ensures StepTargets(table, FedConn, Start) == map[]
  {
    StartEbbs(table);
    var out := AfterEbb(table, 1, {K.A}, OUT);
    var feeds := OtherFeeds(out, [LinkTo2, LinkTo4], K.A);
    assert IsOtherFeed(out, LinkTo2, LinkTo2.nominalPhasePaths[0]);
    assert IsOtherFeed(out, LinkTo4, LinkTo4.nominalPhasePaths[0]);
    assert LinkTo2 in feeds && LinkTo4 in feeds - {LinkTo2};
    assert |feeds| == |feeds - {LinkTo2}| + 1;
    MultiFeedSelectsNothing(out, [LinkTo2, LinkTo4], {K.A});
  }

  /**
   * A phase still fed from two other places stays energised: the run
   * stops after terminal 1, and both neighbours keep BOTH.
   */
  lemma DualFeedKeepsNeighbours(trace: seq<StepRecord>, final: Table)
    requires Completed(FedNet, FedConn, Start, trace, final) && DualFedState(trace[0].before)
    ensures |trace| == 1
    ensures Lookup(final, (2, K.A)) == Status(K.A, BOTH)
    ensures Lookup(final, (4, K.A)) == Status(K.A, BOTH)
  {
    DualFeedTargetsNothing(trace[0].before);
    forall x ensures !StepQueues(FedNet, FedConn, trace[0], x) {
    }
    NothingQueuedOneStep(FedNet, FedConn, Start, trace, final);
    UntouchedKept(FedNet, FedConn, Start, trace, final, (2, K.A));
    UntouchedKept(FedNet, FedConn, Start, trace, final, (4, K.A));
  }

  lemma SingleFeedSelects(table: Table, cr: ConnectivityResult)
    requires SingleFedState(table)
    ensures var out := AfterEbb(table, 1, {K.A}, OUT);
      cr in SelectedFor(K.A, TerminalsByPhase([LinkTo2, LinkTo4]), OtherFeedsByPhase(out, [LinkTo2, LinkTo4])) <==>
      cr == LinkTo4
  {
    StartEbbs(table);
    var out := AfterEbb(table, 1, {K.A}, OUT);
    assert IsOtherFeed(out, LinkTo4, LinkTo4.nominalPhasePaths[0]);
    assert !IsOtherFeed(out, LinkTo2, LinkTo2.nominalPhasePaths[0]);
    assert !HasFeedFrom(out, LinkTo2, K.A);
    assert OtherFeeds(out, [LinkTo2, LinkTo4], K.A) == {LinkTo4};
    SelectionRule(out, [LinkTo2, LinkTo4], K.A, cr);
    assert LinkTo4.nominalPhasePaths[0].from == K.A;
  }

  lemma SingleFeedTargetPairs(table: Table, t: TerminalRef, q: K.SinglePhaseKind)
    requires SingleFedState(table)
    ensures q in GetSet(Targets(AfterEbb(table, 1, {K.A}, OUT), [LinkTo2, LinkTo4], {K.A}), t) <==> t == 4 && q == K.A
  {
    var out := AfterEbb(table, 1, {K.A}, OUT);
    forall cr ensures cr in SelectedFor(K.A, TerminalsByPhase([LinkTo2, LinkTo4]), OtherFeedsByPhase(out, [LinkTo2, LinkTo4])) <==>
      cr == LinkTo4
    {
      SingleFeedSelects(table, cr);
    }
    TargetsMeaning(out, [LinkTo2, LinkTo4], {K.A}, t, q);
  }

  /** With one other feed, only that neighbour loses its IN. */
  lemma SingleFeedTargets(table: Table)
    requires SingleFedState(table)
    ensures StepTargets(table, FedConn, Start) == map[4 := {K.A}]
  {
    StartEbbs(table);
    var out := AfterEbb(table, 1, {K.A}, OUT);
    assert StepTargets(table, FedConn, Start) == Targets(out, [LinkTo2, LinkTo4], {K.A});
    forall t, q ensures q in GetSet(Targets(out, [LinkTo2, LinkTo4], {K.A}), t) <==> t == 4 && q == K.A {
      SingleFeedTargetPairs(table, t, q);
    }
    TargetsSingleton(out, [LinkTo2, LinkTo4], {K.A}, 4, K.A);
  }

  /** The first step queues nothing: equipment 40 has no terminal but 4. */
  lemma SingleFeedQueuesNothing(s: StepRecord, x: EbbPhases)
    requires s.item == Start && SingleFedState(s.before)
    ensures !StepQueues(FedNet, FedConn, s, x)
  {
    SingleFeedTargets(s.before);
    assert FedNet.TerminalsOf(40) == [4];
  }

  /** A status a step selects loses the direction ebbed on it. */
  lemma AfterEbbAllAt(table: Table, targets: map<TerminalRef, set<K.SinglePhaseKind>>, key: StatusKey, direction: PhaseDirection)
    requires TableWellFormed(table) && key in table && key.0 in targets && key.1 in targets[key.0]
    ensures Lookup(AfterEbbAll(table, targets, direction), key) == Removed(table[key], direction)
  {
  }

  /** The first step leaves terminal 4 with OUT alone on A. */
  lemma SingleFeedStepResult(s: StepRecord)
    requires s.item == Start && SingleFedState(s.before)
    ensures Lookup(StepResult(FedConn, s), (4, K.A)) == Status(K.A, OUT)
  {
    SingleFeedTargets(s.before);
    StartEbbs(s.before);
    var out := AfterEbb(s.before, 1, {K.A}, OUT);
    assert Lookup(out, (4, K.A)) == Status(K.A, BOTH);
    AfterEbbAllAt(out, map[4 := {K.A}], (4, K.A), IN);
    RemoveInFromBoth(K.A);
  }

  /** The first step does not touch terminal 2. */
  lemma SingleFeedSkipsTwo(s: StepRecord)
    requires s.item == Start && SingleFedState(s.before)
    ensures !Touches(FedConn, s, (2, K.A))
  {
    SingleFeedTargets(s.before);
  }

  /** With a single other feed the run is one step, from the start. */
  lemma SingleFeedOneStep(trace: seq<StepRecord>, final: Table)
    requires Completed(FedNet, FedConn, Start, trace, final) && SingleFedState(trace[0].before)
    ensures |trace| == 1 && trace[0].item == Start
    ensures final == StepResult(FedConn, trace[0])
  {
    forall x ensures !StepQueues(FedNet, FedConn, trace[0], x) {
      SingleFeedQueuesNothing(trace[0], x);
    }
    NothingQueuedOneStep(FedNet, FedConn, Start, trace, final);
    assert RecordsStep(FedNet, FedConn, Step(trace, 0));
  }

  lemma SingleFeedClearsIn(trace: seq<StepRecord>, final: Table)
    requires Completed(FedNet, FedConn, Start, trace, final) && SingleFedState(trace[0].before)
    ensures |trace| == 1
    ensures Lookup(final, (4, K.A)) == Status(K.A, OUT)
  {
    SingleFeedOneStep(trace, final);
    SingleFeedStepResult(trace[0]);
  }

  lemma SingleFeedKeepsTwo(trace: seq<StepRecord>, final: Table)
    requires Completed(FedNet, FedConn, Start, trace, final) && SingleFedState(trace[0].before)
    ensures Lookup(final, (2, K.A)) == Status(K.A, IN)
  {
    SingleFeedOneStep(trace, final);
    SingleFeedSkipsTwo(trace[0]);
    UntouchedKept(FedNet, FedConn, Start, trace, final, (2, K.A));
  }

  /**
   * With a single other feed, the spread follows only that feed: terminal
   * 4 loses its IN and keeps OUT, terminal 2 is left as it was, and as
   * equipment 40 has no other terminal nothing more is queued.
   */
  lemma SingleFeedFollowsTheFeed(trace: seq<StepRecord>, final: Table)
    requires Completed(FedNet, FedConn, Start, trace, final) && SingleFedState(trace[0].before)
    ensures |trace| == 1
    ensures Lookup(final, (4, K.A)) == Status(K.A, OUT)
    ensures Lookup(final, (2, K.A)) == Status(K.A, IN)
  {
    SingleFeedClearsIn(trace, final);
    SingleFeedKeepsTwo(trace, final);
  }
}
