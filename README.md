# evolve-sdk-jvm network core, modelled in Dafny

This project models the core of the Zepben evolve SDK for the JVM. That SDK is the CIM (IEC 61970/61968) network model and its tracing engine. The Dafny model covers:

- **The phase vocabulary.** `PhaseCode` with its single phases and reverse lookup. `FeederDirection` and the phase direction as two-bit flags. The per-terminal `PhaseStatus` of traced phases: set, add, remove and remove-any, with the crossing-phases error.
- **`ConnectivityResult`.** A from-terminal, a to-terminal and the nominal phase paths between them, kept sorted by `(from, to)`.
- **`RemovePhases`.** The trace that ebbs energised phases out of a terminal, across the connectivity nodes and into the other terminals, queue item by queue item, on both the normal and the current phase tables.
- **The generic traversal engine.** Stop and queue conditions, step actions, computed step contexts, the tracker, the worklist loop and its run/reset state machine.
- **Network trace steps.** Network trace steps, the step-limit condition on equipment counts, and `StepContext`.
- **The CIM objects.** `Terminal` (write-once conducting equipment, connect and disconnect), `UsagePoint` (its equipment and end-device collections) and `IdentifiedObject` (the mRID default).
- **Small value types.** The network-service comparator options and their builder, and `GrpcResult`.
- **The ingestion metrics.** A job collection keyed by UUID, the collection of metrics, per-source metadata with content-hash equality, per-container network metrics, and the mapping between containers and network levels.

Modules follow the source files: `Phases`, `PhaseCodes`, `FeederDirections`, `PhaseStatus`, `Topology`, `ConnectivityResults`, `RemovePhases`, `Traversals`, `StepContexts`, `NetworkTraceSteps`, `EquipmentStepLimits`, `Terminals`, `UsagePoints`, `IdentifiedObjects`, `ComparatorOptions`, `GrpcResults`, `NetworkContainers`, `SourceFiles`, `JobSourceTables`, `NetworkMetricsTables`, `IngestionOrders`, `IngestionJobs` and `IngestionMetricsCollections`. Three support modules are `Wrappers` (Option and Result), `Sorting` (a stable insertion sort with its permutation proof) and `JavaInts` (32-bit wrap-around and the `List.hashCode` recurrence).

Objects the source updates in place are classes:

- the traced-phases store;
- `TraversalV2`, `StepContext`, `Terminal`, `UsagePoint` and `IdentifiedObject`;
- the comparator builder;
- `SourceMetadata`, `JobSources`, `NetworkMetrics`, `ContainerMetrics` and the two ingestion collections.

Each class's methods state the new value of every field they modify. Pure computations are functions. Properties that relate several calls are lemmas.

Network objects that the core only refers to are opaque references (`TerminalRef` and `EquipmentRef`, both `nat`). A `Topology.Network` value gives each terminal's equipment, each equipment's terminals and each terminal's phases. Things outside the model are passed in as parameters:

- `NetworkService.connectedTerminals`, through `Connectivity`;
- the priority queue's choice of what to take next (`Pick`);
- `UUID.fromString`;
- the random UUID generator;
- hash functions of referenced objects.

## Model

| member | source | states |
|---|---|---|
| PhaseCodes.SinglePhases | src/main/kotlin/com/zepben/evolve/cim/iec61970/base/core/PhaseCode.kt:47-72 | every code lists one to four phases, never INVALID, and lists NONE exactly when it is the NONE code |
| PhaseCodes.NumPhases | src/main/kotlin/com/zepben/evolve/cim/iec61970/base/core/PhaseCode.kt:74-79 | the count is zero exactly for NONE and at most four |
| PhaseCodes.RegisterHas | src/main/kotlin/com/zepben/evolve/cim/iec61970/base/core/PhaseCode.kt:92-94 | registering each code under the set of its phases makes the lookup table return that code for that set |
| PhaseCodes.RegisterKeys | src/main/kotlin/com/zepben/evolve/cim/iec61970/base/core/PhaseCode.kt:92-94 | every entry of the lookup table is a registered code stored under its own phase set |
| PhaseCodes.KeyInjective | src/main/kotlin/com/zepben/evolve/cim/iec61970/base/core/PhaseCode.kt:47-70 | no two codes have the same phase set, so the registration never overwrites |
| PhaseCodes.FromSinglePhasesRoundTrip | src/main/kotlin/com/zepben/evolve/cim/iec61970/base/core/PhaseCode.kt:98-103 | looking a code up by its own single phases gives the code back |
| PhaseCodes.FromSinglePhasesMeaning | src/main/kotlin/com/zepben/evolve/cim/iec61970/base/core/PhaseCode.kt:98-103 | the lookup depends only on the set of phases given: the code with that set, or NONE when no code has it |
| PhaseCodes.WithoutNeutralMeaning | src/main/kotlin/com/zepben/evolve/cim/iec61970/base/core/PhaseCode.kt:85-90 | the result never contains N; a code without N is returned as is; otherwise the result has the code's phases minus N, and N alone gives NONE |
| PhaseCodes.WithoutNeutralIdempotent | src/main/kotlin/com/zepben/evolve/cim/iec61970/base/core/PhaseCode.kt:85-90 | dropping the neutral twice is the same as once |
| FeederDirections.ByValue | src/main/kotlin/com/zepben/evolve/services/network/tracing/phases/FeederDirection.kt:27 | the table sorted by value holds at index i the direction whose value is i |
| FeederDirections.From | src/main/kotlin/com/zepben/evolve/services/network/tracing/phases/FeederDirection.kt:29-32 | values 1 to 3 give the direction with that value; any other value gives NONE |
| FeederDirections.FromValue | src/main/kotlin/com/zepben/evolve/services/network/tracing/phases/FeederDirection.kt:21-37 | `from(d.value())` is `d` for every direction |
| FeederDirections.HasIsBitContainment | src/main/kotlin/com/zepben/evolve/services/network/tracing/phases/FeederDirection.kt:39-41 | `has` is containment of the direction bits, except that nothing has NONE but NONE itself |
| FeederDirections.Plus | src/main/kotlin/com/zepben/evolve/services/network/tracing/phases/FeederDirection.kt:43-45 | the result's bits are the union of the operands' bits |
| FeederDirections.Minus | src/main/kotlin/com/zepben/evolve/services/network/tracing/phases/FeederDirection.kt:47-49 | the result's bits are the left operand's bits without the right operand's |
| FeederDirections.PlusAlgebra | src/main/kotlin/com/zepben/evolve/services/network/tracing/phases/FeederDirection.kt:43-45 | plus is commutative and idempotent, NONE is its unit, BOTH absorbs, and UPSTREAM plus DOWNSTREAM is BOTH |
| FeederDirections.MinusUndoesPlus | src/main/kotlin/com/zepben/evolve/services/network/tracing/phases/FeederDirection.kt:43-49 | subtracting what was added leaves the left-over part; a direction minus itself is NONE; BOTH minus UPSTREAM is DOWNSTREAM |
| FeederDirections.PlusAfterMinus | src/main/kotlin/com/zepben/evolve/services/network/tracing/phases/FeederDirection.kt:43-49 | adding back what was subtracted gives the sum of the two operands |
| PhaseStatus.HasBothOnlyBoth | src/main/java/com/zepben/cimbend/network/tracing/RemovePhases.java:156 | only BOTH has BOTH, which is the other-feed test of the phase-removal trace |
| PhaseStatus.SetStatus | src/main/kotlin/com/zepben/evolve/services/network/tracing/phases/PhaseStatus.kt:35 | a NONE phase or a NONE direction clears the status; otherwise the status becomes exactly that phase and direction; the result reports a change exactly when the status differs |
| PhaseStatus.AddStatus | src/main/kotlin/com/zepben/evolve/services/network/tracing/phases/PhaseStatus.kt:44 | adding NONE changes nothing; adding a different phase over a set one is the crossing-phases error; otherwise the phase is set and the direction bits are joined, and a change is reported exactly when the status differs |
| PhaseStatus.RemoveStatus | src/main/kotlin/com/zepben/evolve/services/network/tracing/phases/PhaseStatus.kt:53 | removing a phase that is not the one set changes nothing; otherwise the given direction bits are cleared, and the phase goes back to NONE when no direction is left |
| PhaseStatus.RemoveAnyStatus | src/main/kotlin/com/zepben/evolve/services/network/tracing/phases/PhaseStatus.kt:61 | the status is cleared exactly when the given phase is the one set (and not NONE); otherwise nothing changes |
| PhaseStatus.SetIsIdempotent | src/test/kotlin/com/zepben/evolve/services/network/tracing/phases/TracedPhasesTest.kt:49-147 | setting the same phase and direction a second time reports no change |
| PhaseStatus.AddIsIdempotent | src/test/kotlin/com/zepben/evolve/services/network/tracing/phases/TracedPhasesTest.kt:149-232 | adding the same phase and direction a second time reports no change |
| PhaseStatus.RemoveUndoesAdd | src/test/kotlin/com/zepben/evolve/services/network/tracing/phases/TracedPhasesTest.kt:234-283 | removing what was added to a cleared status clears it again |
| PhaseStatus.RemovalOnlyClearsBits | src/test/kotlin/com/zepben/evolve/services/network/tracing/phases/TracedPhasesTest.kt:309-318 | removal never adds direction bits, and a successful add never drops them |
| PhaseStatus.TracedPhasesStore.Set | src/main/kotlin/com/zepben/evolve/services/network/tracing/phases/PhaseStatus.kt:35 | the terminal's status in the selected table becomes what `SetStatus` gives; only that entry changes, and the other table is untouched |
| PhaseStatus.TracedPhasesStore.Add | src/main/kotlin/com/zepben/evolve/services/network/tracing/phases/PhaseStatus.kt:44 | on crossing phases the call fails and the table is unchanged; otherwise the entry becomes what `AddStatus` gives; the other table is untouched |
| PhaseStatus.TracedPhasesStore.Remove | src/main/kotlin/com/zepben/evolve/services/network/tracing/phases/PhaseStatus.kt:53 | the entry becomes what `RemoveStatus` gives; nothing else changes |
| PhaseStatus.TracedPhasesStore.RemoveAny | src/main/kotlin/com/zepben/evolve/services/network/tracing/phases/PhaseStatus.kt:61 | the entry becomes what `RemoveAnyStatus` gives; nothing else changes |
| Sorting.SortBySortsAndPermutes | src/main/java/com/zepben/cimbend/network/tracing/ConnectivityResult.java:127 | the list sort gives a sorted permutation of its input |
| Sorting.SortedUnique | src/main/java/com/zepben/cimbend/network/tracing/ConnectivityResult.java:127 | under a total order, two sorted permutations of the same list are equal |
| Sorting.SortInPlace | src/main/java/com/zepben/cimbend/network/tracing/ConnectivityResult.java:127 | `ArrayList.sort`, in place: the array ends sorted and is a permutation of what it held |
| Sorting.SortByIsStable | src/main/kotlin/com/zepben/evolve/metrics/IngestionJobCollection.kt:17-19 | `sortedWith` is stable: elements that all compare equal to one another leave the sort in the order they entered it |
| ConnectivityResults.PathLeIsTotalOrder | src/main/java/com/zepben/cimbend/network/tracing/ConnectivityResult.java:127 | comparing by `from`, then by `to`, is a total order on nominal phase paths |
| ConnectivityResults.Between | src/main/java/com/zepben/cimbend/network/tracing/ConnectivityResult.java:45-47 | the result keeps both terminals and holds the given paths as a sorted permutation |
| ConnectivityResults.SortPathsIgnoresOrder | src/main/java/com/zepben/cimbend/network/tracing/ConnectivityResult.java:122-128 | the order in which the paths are given does not matter to the result |
| ConnectivityResults.SortPathsKeepsSorted | src/main/java/com/zepben/cimbend/network/tracing/ConnectivityResult.java:122-128 | paths given already sorted are kept as given |
| ConnectivityResults.EqualsIffSamePaths | src/main/java/com/zepben/cimbend/network/tracing/ConnectivityResult.java:98-106 | two results `between` built for the same terminals are equal exactly when they were given the same paths, duplicates counted, in any order |
| ConnectivityResults.FromNominalPhases | src/main/java/com/zepben/cimbend/network/tracing/ConnectivityResult.java:80-82 | one entry per path, the path's `from` phase, in path order |
| ConnectivityResults.ToNominalPhases | src/main/java/com/zepben/cimbend/network/tracing/ConnectivityResult.java:87-89 | one entry per path, the path's `to` phase, in path order |
| ConnectivityResults.ProjectionsZip | src/main/java/com/zepben/cimbend/network/tracing/ConnectivityResult.java:80-89 | zipping the from and to projections gives the paths back |
| ConnectivityResults.From | src/main/java/com/zepben/cimbend/network/tracing/ConnectivityResult.java:52-54 | the from-terminal's conducting equipment, or none when it has none |
| ConnectivityResults.To | src/main/java/com/zepben/cimbend/network/tracing/ConnectivityResult.java:66-68 | the to-terminal's conducting equipment, or none when it has none |
| ConnectivityResults.HashCode | src/main/java/com/zepben/cimbend/network/tracing/ConnectivityResult.java:108-111 | `Objects.hash` of the three fields, a 32-bit value |
| RemovePhases.EbbPhasesAt | src/main/java/com/zepben/cimbend/network/tracing/RemovePhases.java:138-146 | returns exactly the phases whose status had a bit of the direction set, clears those bits, and leaves the other phase table untouched |
| RemovePhases.AfterEbbClears | src/main/java/com/zepben/cimbend/network/tracing/RemovePhases.java:138-146 | after ebbing, no ebbed phase keeps a bit of that direction |
| RemovePhases.AfterEbbShrinks | src/main/java/com/zepben/cimbend/network/tracing/RemovePhases.java:138-146 | ebbing only clears bits; it clears at least one when a phase was had; it changes nothing when none was |
| RemovePhases.SortTerminalsByPhase | src/main/java/com/zepben/cimbend/network/tracing/RemovePhases.java:148-160 | groups each connected terminal under every `from` phase of its paths, and separately under those whose `to` phase's status has BOTH directions |
| RemovePhases.FeedsAreListed | src/main/java/com/zepben/cimbend/network/tracing/RemovePhases.java:148-160 | every other feed of a phase is also among that phase's connected terminals |
| RemovePhases.MappedPhase | src/main/java/com/zepben/cimbend/network/tracing/RemovePhases.java:168-173 | the `to` phase of the first path from the given phase, or NONE when there is none |
| RemovePhases.MappedPhaseIsAPathTo | src/main/java/com/zepben/cimbend/network/tracing/RemovePhases.java:168-173 | when some path starts at the phase, the mapped phase is the end of one of them |
| RemovePhases.AddTerminalPhases | src/main/java/com/zepben/cimbend/network/tracing/RemovePhases.java:162-176 | a null set adds nothing; otherwise each listed terminal gains the phase its paths map the given phase to |
| RemovePhases.SelectionRule | src/main/java/com/zepben/cimbend/network/tracing/RemovePhases.java:110-126 | a connected terminal is ebbed for a phase exactly when there are no other feeds, or when it is the single other feed |
| RemovePhases.MultiFeedSelectsNothing | src/main/java/com/zepben/cimbend/network/tracing/RemovePhases.java:110-126 | with two or more other feeds for every phase, nothing is ebbed or queued |
| RemovePhases.TargetsMeaning | src/main/java/com/zepben/cimbend/network/tracing/RemovePhases.java:118-126 | a terminal is to lose a phase exactly when a selected connection maps a processed phase to it |
| RemovePhases.FindTargets | src/main/java/com/zepben/cimbend/network/tracing/RemovePhases.java:106-126 | the phases collected per terminal are those of the selection rule |
| RemovePhases.Siblings | src/main/java/com/zepben/cimbend/network/tracing/RemovePhases.java:131-134 | one queue item for each other terminal of the equipment, carrying the phases the terminal had |
| RemovePhases.EbbTarget | src/main/java/com/zepben/cimbend/network/tracing/RemovePhases.java:129-134 | ebbs the in-direction from one terminal, and queues its equipment's other terminals with the phases it had; fails when the terminal has no equipment |
| RemovePhases.EbbInAndQueue | src/main/java/com/zepben/cimbend/network/tracing/RemovePhases.java:128-135 | ebbs every collected terminal, and queues exactly the sibling items of each; fails exactly when a target has no equipment |
| RemovePhases.EbbOutAndQueue | src/main/java/com/zepben/cimbend/network/tracing/RemovePhases.java:99-136 | one step: the out-direction is ebbed from the item's terminal, then the in-direction from the selected connected terminals; nothing else happens when no phase was had, and no bit is ever set |
| RemovePhases.CompletedClearsOut | src/main/java/com/zepben/cimbend/network/tracing/RemovePhases.java:99-100 | after a completed traversal, every processed item's terminal has none of its phases feeding OUT |
| RemovePhases.CompletedClearsIn | src/main/java/com/zepben/cimbend/network/tracing/RemovePhases.java:118-129 | after a completed traversal, every terminal a step selected has none of its selected phases fed IN |
| RemovePhases.CompletedShrinks | src/main/java/com/zepben/cimbend/network/tracing/RemovePhases.java:99-146 | a completed traversal only clears bits of the table it began on |
| RemovePhases.UntouchedKept | src/main/java/com/zepben/cimbend/network/tracing/RemovePhases.java:99-136 | a status that no processed step ebbs keeps the value it had when the traversal began |
| RemovePhasesExamples.ChainRunClearsAll | src/main/java/com/zepben/cimbend/network/tracing/RemovePhases.java:99-136 | on a chain 1 to 2 (through a node) and 2 to 3 (through equipment), ebbing A from terminal 1 clears A on all three terminals |
| RemovePhasesExamples.DualFeedKeepsNeighbours | src/main/java/com/zepben/cimbend/network/tracing/RemovePhases.java:121-126 | when the node is still fed from two other terminals, the traversal stops after its first step and both neighbours keep both directions |
| RemovePhasesExamples.SingleFeedFollowsTheFeed | src/main/java/com/zepben/cimbend/network/tracing/RemovePhases.java:124-125 | with a single other feed, only that feed loses its IN (keeping OUT), the other neighbour keeps its status, and nothing more is queued |
| RemovePhases.RunTraversal | src/main/java/com/zepben/cimbend/network/tracing/RemovePhases.java:86-89 | the traversal touches only its own phase table and only clears bits; its trace records one `ebbOutAndQueue` step per processed item, starting on the table as it was; when no target lacks equipment the trace is completed, every queued item having been processed; every processed item ends with none of its phases feeding OUT; a start with nothing to ebb changes nothing |
| RemovePhases.Run | src/main/java/com/zepben/cimbend/network/tracing/RemovePhases.java:79-84 | the normal and then the current traversal from the same start item; neither table gains a bit; the start terminal ends with no out-direction of the given phases; when both succeed, each table is the end of a completed traversal that began on that table as it was; nothing to ebb changes nothing |
| RemovePhases.RunTerminal | src/main/java/com/zepben/cimbend/network/tracing/RemovePhases.java:71-73 | runs from the terminal with all of its own single phases, with the guarantees of `run` |
| RemovePhases.RunEquipment | src/main/java/com/zepben/cimbend/network/tracing/RemovePhases.java:67-69 | runs from every terminal of the equipment in order with that terminal's phases, each run completing on the tables the one before left; no bit is set, and every terminal ends with none of its phases feeding OUT in either table |
| RemovePhases.RunEquipmentPhases | src/main/java/com/zepben/cimbend/network/tracing/RemovePhases.java:75-77 | runs from every terminal of the equipment in order with the given phases, each run completing on the tables the one before left; no bit is set, and every terminal ends with none of those phases feeding OUT in either table |
| Traversals.FoldAnyMeaning | src/main/kotlin/com/zepben/evolve/services/network/tracing/networktrace/TraversalV2.kt:113-114 | the fold is true exactly when its seed is or some condition matches |
| Traversals.MatchesAnyMeaning | src/main/kotlin/com/zepben/evolve/services/network/tracing/networktrace/TraversalV2.kt:113-114 | an item is a stop point exactly when some stop condition matches it |
| Traversals.MatchesAllMeaning | src/main/kotlin/com/zepben/evolve/services/network/tracing/networktrace/TraversalV2.kt:132 | an item may be queued exactly when every queue condition holds for it |
| Traversals.Fired | src/main/kotlin/com/zepben/evolve/services/network/tracing/networktrace/TraversalV2.kt:174-188 | the actions that take effect are the registered ones whose guard (always, if not stopping, if stopping) holds |
| Traversals.NextContextMeaning | src/main/kotlin/com/zepben/evolve/services/network/tracing/networktrace/TraversalV2.kt:229-238 | the next context is one step further and not stopping; it has no data without computers, and otherwise each key holds its computer's value |
| Traversals.AdmittedMeaning | src/main/kotlin/com/zepben/evolve/services/network/tracing/networktrace/TraversalV2.kt:322-333 | of the items offered, exactly those that pass every queue condition are queued |
| Traversals.TraversalV2.constructor | src/main/kotlin/com/zepben/evolve/services/network/tracing/networktrace/TraversalV2.kt:27-66 | a traversal starts with no start item, no callbacks, an empty queue and tracker, and has neither run nor is running |
| Traversals.TraversalV2.AddStopCondition | src/main/kotlin/com/zepben/evolve/services/network/tracing/networktrace/TraversalV2.kt:81-84 | the condition is appended to the stop conditions |
| Traversals.TraversalV2.ClearStopConditions | src/main/kotlin/com/zepben/evolve/services/network/tracing/networktrace/TraversalV2.kt:89-92 | no stop condition is left |
| Traversals.TraversalV2.CopyStopConditions | src/main/kotlin/com/zepben/evolve/services/network/tracing/networktrace/TraversalV2.kt:100-103 | the other traversal's stop conditions are appended |
| Traversals.TraversalV2.AddQueueCondition | src/main/kotlin/com/zepben/evolve/services/network/tracing/networktrace/TraversalV2.kt:117-120 | the condition is appended to the queue conditions |
| Traversals.TraversalV2.ClearQueueConditions | src/main/kotlin/com/zepben/evolve/services/network/tracing/networktrace/TraversalV2.kt:122-125 | no queue condition is left |
| Traversals.TraversalV2.CopyQueueConditions | src/main/kotlin/com/zepben/evolve/services/network/tracing/networktrace/TraversalV2.kt:127-130 | the other traversal's queue conditions are appended |
| Traversals.TraversalV2.AddStepAction | src/main/kotlin/com/zepben/evolve/services/network/tracing/networktrace/TraversalV2.kt:141-166 | an action applied on every visit is appended |
| Traversals.TraversalV2.AddIfNotStopping | src/main/kotlin/com/zepben/evolve/services/network/tracing/networktrace/TraversalV2.kt:174-177 | an action applied only on items that are not stop points is appended |
| Traversals.TraversalV2.AddIfStopping | src/main/kotlin/com/zepben/evolve/services/network/tracing/networktrace/TraversalV2.kt:185-188 | an action applied only on stop points is appended |
| Traversals.TraversalV2.ClearStepActions | src/main/kotlin/com/zepben/evolve/services/network/tracing/networktrace/TraversalV2.kt:193-196 | no step action is left |
| Traversals.TraversalV2.CopyStepActions | src/main/kotlin/com/zepben/evolve/services/network/tracing/networktrace/TraversalV2.kt:204-207 | the other traversal's step actions are appended |
| Traversals.TraversalV2.AddComputeNextContext | src/main/kotlin/com/zepben/evolve/services/network/tracing/networktrace/TraversalV2.kt:220-227 | a null computer removes the key; otherwise the key is bound to the computer |
| Traversals.TraversalV2.SetStart | src/main/kotlin/com/zepben/evolve/services/network/tracing/networktrace/TraversalV2.kt:246-249 | the start item is set |
| Traversals.TraversalV2.ComputeNextContext | src/main/kotlin/com/zepben/evolve/services/network/tracing/networktrace/TraversalV2.kt:229-238 | the loop over the computers builds the next context |
| Traversals.TraversalV2.QueueItem | src/main/kotlin/com/zepben/evolve/services/network/tracing/networktrace/TraversalV2.kt:322-333 | the item is queued, with its next context recorded, exactly when every queue condition holds; otherwise nothing changes |
| Traversals.TraversalV2.QueueAll | src/main/kotlin/com/zepben/evolve/services/network/tracing/networktrace/TraversalV2.kt:313-333 | queues, in order, exactly the offered items that pass every queue condition, each with its next context computed from the visiting context |
| Traversals.TraversalV2.Visit | src/main/kotlin/com/zepben/evolve/services/network/tracing/networktrace/TraversalV2.kt:306-317 | records one visit of the item: it is stopping exactly when it may stop and a stop condition holds, the actions whose guard holds fire, and only when it is not stopping are its admitted successors queued with their computed contexts |
| Traversals.TraversalV2.DoRun | src/main/kotlin/com/zepben/evolve/services/network/tracing/networktrace/TraversalV2.kt:296-320 | the loop ends with an empty queue; each item is visited once; every admitted successor is visited; only the start item may be exempt from stopping; stop points queue nothing |
| Traversals.TraversalV2.Run | src/main/kotlin/com/zepben/evolve/services/network/tracing/networktrace/TraversalV2.kt:270-280 | a running traversal fails with "already running", one that has run fails with "must be reset", and neither failure changes anything; a successful run ends having run, not running, with an empty queue; each item is visited once and every admitted successor is visited; only the first visit may be exempt from stopping; every visit sees the context its item was last queued with, computed from the queuing visit's context (or the start item's, from a fresh context); with nothing queued beforehand the start item is visited first and every later visit is of an item an earlier visit queued |
| Traversals.VisitsQueuedWith | src/main/kotlin/com/zepben/evolve/services/network/tracing/networktrace/TraversalV2.kt:299-333 | along the visits of a run, each visit's context is the one computed when its item was last queued, or the one it held when the run began; from a single start item, every later visit is of an item some earlier visit queued |
| Traversals.TraversalV2.RunFrom | src/main/kotlin/com/zepben/evolve/services/network/tracing/networktrace/TraversalV2.kt:258-261 | sets the start item, then runs with every guarantee of `run`: the failures, single visits, coverage, the stop exemption of the start item only when asked, and the provenance of every visit's context; with nothing queued, the start item is visited first |
| Traversals.TraversalV2.Reset | src/main/kotlin/com/zepben/evolve/services/network/tracing/networktrace/TraversalV2.kt:282-294 | fails while running without changing anything; otherwise clears the run flag, the queue and the tracker |
| StepContexts.Put | src/main/kotlin/com/zepben/evolve/services/network/tracing/traversalV2/StepContext.kt:19-22 | the map is created on first use and afterwards holds the written key as well as all earlier keys |
| StepContexts.GetAfterPut | src/main/kotlin/com/zepben/evolve/services/network/tracing/traversalV2/StepContext.kt:19-27 | reading the key just written gives the value written; other keys read as before |
| StepContexts.PutOverwrites | src/main/kotlin/com/zepben/evolve/services/network/tracing/traversalV2/StepContext.kt:19-22 | a second write to a key replaces the first |
| StepContexts.StepContext.constructor | src/main/kotlin/com/zepben/evolve/services/network/tracing/traversalV2/StepContext.kt:11-16 | keeps the start flag, step number and data, and is not stopping |
| StepContexts.StepContext.SetData | src/main/kotlin/com/zepben/evolve/services/network/tracing/traversalV2/StepContext.kt:19-22 | the data becomes the map with the key written |
| StepContexts.StepContext.Default | src/main/kotlin/com/zepben/evolve/services/network/tracing/traversalV2/StepContext.kt:11-16 | `StepContext(isStartItem)`: step 0, no data, not stopping |
| StepContexts.StepContext.GetData | src/main/kotlin/com/zepben/evolve/services/network/tracing/traversalV2/StepContext.kt:25-27 | the value stored under the key, null when there is no map or no such key |
| StepContexts.StepContext.SetStopping | src/main/kotlin/com/zepben/evolve/services/network/tracing/traversalV2/StepContext.kt:16-17 | the stopping flag takes the given value and the data reads as before |
| NetworkTraceSteps.TerminalToTerminal | src/main/kotlin/com/zepben/evolve/services/network/tracing/networktrace/NetworkTraceStep.kt:27-38 | the step's equipment is each terminal's own; a terminal without equipment is an error, the from-terminal checked first |
| EquipmentStepLimits.ContextDataKeysDistinct | src/main/kotlin/com/zepben/evolve/services/network/tracing/networktrace/conditions/EquipmentStepLimitCondition.kt:29-30 | conditions on different classes use different context keys, all starting with `sdk:nSteps` |
| EquipmentStepLimits.ContextDataKey | src/main/kotlin/com/zepben/evolve/services/network/tracing/networktrace/conditions/EquipmentStepLimitCondition.kt:29-30 | the key starts with `sdk:nSteps` and is exactly that prefix when the condition has no class |
| EquipmentStepLimits.StopCondition | src/main/kotlin/com/zepben/evolve/services/network/tracing/networktrace/conditions/EquipmentStepLimitCondition.kt:19-25 | without a class, stop once the trace's equipment step count reaches the limit; with one, the stop test reads the stored counter and fails only when a non-number is stored |
| EquipmentStepLimits.EquipmentTypeSteps | src/main/kotlin/com/zepben/evolve/services/network/tracing/networktrace/conditions/EquipmentStepLimitCondition.kt:44-47 | the stored counter, 0 when nothing is stored, and a cast error when something else is stored |
| EquipmentStepLimits.ComputeNextContextDataAsWritten | src/main/kotlin/com/zepben/evolve/services/network/tracing/networktrace/conditions/EquipmentStepLimitCondition.kt:32-42 | as written: no class computes null; with one, a number, failing only when a non-number is stored |
| EquipmentStepLimits.AsWrittenCounts | src/main/kotlin/com/zepben/evolve/services/network/tracing/networktrace/conditions/EquipmentStepLimitCondition.kt:36-41 | the as-written counter never drops; it grows by one exactly on a step between equipment where the configured class is a subclass of the to-equipment's class, and otherwise keeps its value |
| EquipmentStepLimits.ComputeNextContextData | src/main/kotlin/com/zepben/evolve/services/network/tracing/networktrace/conditions/EquipmentStepLimitCondition.kt:32-42 | the corrected computer: no class computes null; with one, a number, failing only when a non-number is stored |
| EquipmentStepLimits.CounterCountsTypedSteps | src/main/kotlin/com/zepben/evolve/services/network/tracing/networktrace/conditions/EquipmentStepLimitCondition.kt:32-42 | the counter never drops; it grows by one exactly on a step between equipment onto an instance of the configured class |
| EquipmentStepLimits.AsWrittenMissesSubclass | src/main/kotlin/com/zepben/evolve/services/network/tracing/networktrace/conditions/EquipmentStepLimitCondition.kt:39 | as written, a step onto a Breaker does not count for a Switch condition, while the corrected test counts it |
| EquipmentStepLimits.AsWrittenAgreesOnExactClass | src/main/kotlin/com/zepben/evolve/services/network/tracing/networktrace/conditions/EquipmentStepLimitCondition.kt:37-41 | both class tests agree when the equipment is exactly of the configured class |
| EquipmentStepLimits.CounterAlongPath | src/main/kotlin/com/zepben/evolve/services/network/tracing/networktrace/conditions/EquipmentStepLimitCondition.kt:32-47 | along any path of steps from the start, the stored counter equals the number of steps between equipment onto an instance of the configured class |
| EquipmentStepLimits.StopAfterPath | src/main/kotlin/com/zepben/evolve/services/network/tracing/networktrace/conditions/EquipmentStepLimitCondition.kt:19-47 | after any path from the start, a condition on a class stops exactly when the path has made at least `limit` steps onto instances of that class |
| IdentifiedObjects.InitialMRID | src/main/java/com/zepben/cimbend/cim/iec61970/base/core/IdentifiedObject.kt:25 | a non-empty mRID is kept; an empty one is replaced by the generated UUID, so the mRID is never empty |
| IdentifiedObjects.IdentifiedObject.constructor | src/main/java/com/zepben/cimbend/cim/iec61970/base/core/IdentifiedObject.kt:23-28 | the mRID follows `InitialMRID` with a random UUID; the name and description are empty and there are no diagram objects |
| IdentifiedObjects.IdentifiedObject.SetName | src/main/java/com/zepben/cimbend/cim/iec61970/base/core/IdentifiedObject.kt:26 | the name takes the given value; the description and diagram count are kept |
| IdentifiedObjects.IdentifiedObject.SetDescription | src/main/java/com/zepben/cimbend/cim/iec61970/base/core/IdentifiedObject.kt:27 | the description takes the given value; the name and diagram count are kept |
| IdentifiedObjects.IdentifiedObject.SetNumDiagramObjects | src/main/java/com/zepben/cimbend/cim/iec61970/base/core/IdentifiedObject.kt:28 | the count takes the given value, and the object has diagram objects exactly when it is positive |
| IdentifiedObjects.IdentifiedObject.HasDiagramObjects | src/main/java/com/zepben/cimbend/cim/iec61970/base/core/IdentifiedObject.kt:33-34 | true exactly when at least one diagram object is counted |
| Terminals.SetOnce | src/main/kotlin/com/zepben/evolve/cim/iec61970/base/core/Terminal.kt:31-35 | setting succeeds exactly when nothing is set yet or the same equipment is set again, and fails naming the current equipment otherwise |
| Terminals.SetEquipmentIsPermanent | src/main/kotlin/com/zepben/evolve/cim/iec61970/base/core/Terminal.kt:31-35 | once equipment is set, no sequence of set attempts changes it |
| Terminals.FirstEquipmentWins | src/main/kotlin/com/zepben/evolve/cim/iec61970/base/core/Terminal.kt:31-35 | starting from nothing, the first non-null equipment offered is the one that stays |
| Terminals.Terminal.constructor | src/main/kotlin/com/zepben/evolve/cim/iec61970/base/core/Terminal.kt:29-43 | no equipment, phases ABC, sequence number 0, not connected |
| Terminals.Terminal.SetConductingEquipment | src/main/kotlin/com/zepben/evolve/cim/iec61970/base/core/Terminal.kt:31-35 | the write-once rule of `SetOnce`; a failure leaves the field as it was |
| Terminals.Terminal.ConnectivityNodeId | src/main/kotlin/com/zepben/evolve/cim/iec61970/base/core/Terminal.kt:54 | the node's mRID exactly when the terminal is connected |
| Terminals.Terminal.IsConnected | src/main/kotlin/com/zepben/evolve/cim/iec61970/base/core/Terminal.kt:61 | true exactly when the terminal refers to a connectivity node |
| Terminals.Terminal.SetConnectivityNode | src/main/kotlin/com/zepben/evolve/cim/iec61970/base/core/Terminal.kt:45-49 | null disconnects; a node connects to that node |
| Terminals.Terminal.Connect | src/main/kotlin/com/zepben/evolve/cim/iec61970/base/core/Terminal.kt:82-84 | the terminal is connected to the node |
| Terminals.Terminal.Disconnect | src/main/kotlin/com/zepben/evolve/cim/iec61970/base/core/Terminal.kt:90-92 | the terminal is no longer connected |
| Terminals.Terminal.SetPhases | src/main/kotlin/com/zepben/evolve/cim/iec61970/base/core/Terminal.kt:37 | the phases take the given code; the equipment and the connection are kept |
| Terminals.Terminal.SetSequenceNumber | src/main/kotlin/com/zepben/evolve/cim/iec61970/base/core/Terminal.kt:38 | the sequence number takes the given value; the equipment and the connection are kept |
| UsagePoints.FirstWithMRID | src/main/kotlin/com/zepben/evolve/cim/iec61968/metering/UsagePoint.kt:45 | the element found has the requested mRID, and nothing is found exactly when no element has it |
| UsagePoints.Add | src/main/kotlin/com/zepben/evolve/cim/iec61968/metering/UsagePoint.kt:47-55 | adding fails exactly when a different element with the same mRID is present; the same element again changes nothing; otherwise it is appended, and mRIDs stay distinct |
| UsagePoints.RemoveFirst | src/main/kotlin/com/zepben/evolve/cim/iec61968/metering/UsagePoint.kt:57-61 | the element is gone and everything else is kept |
| UsagePoints.RemoveFirstKeepsDistinct | src/main/kotlin/com/zepben/evolve/cim/iec61968/metering/UsagePoint.kt:57-61 | removal keeps the mRIDs distinct |
| UsagePoints.RemoveSpec | src/main/kotlin/com/zepben/evolve/cim/iec61968/metering/UsagePoint.kt:57-61 | removal reports true exactly when the element was present; the count drops by one exactly then; the collection stays valid, and an emptied list goes back to null |
| UsagePoints.RemoveTwice | src/main/kotlin/com/zepben/evolve/cim/iec61968/metering/UsagePoint.kt:57-61 | removing the same element a second time reports false |
| UsagePoints.UsagePoint.NumEquipment | src/main/kotlin/com/zepben/evolve/cim/iec61968/metering/UsagePoint.kt:37 | the size of the equipment list, 0 exactly when there is no list |
| UsagePoints.UsagePoint.GetEquipment | src/main/kotlin/com/zepben/evolve/cim/iec61968/metering/UsagePoint.kt:45 | an equipment with that mRID, null exactly when none has it |
| UsagePoints.UsagePoint.NumEndDevices | src/main/kotlin/com/zepben/evolve/cim/iec61968/metering/UsagePoint.kt:76 | the size of the end-device list, 0 exactly when there is no list |
| UsagePoints.UsagePoint.GetEndDevice | src/main/kotlin/com/zepben/evolve/cim/iec61968/metering/UsagePoint.kt:84 | an end device with that mRID, null exactly when none has it |
| UsagePoints.UsagePoint.AddEquipment | src/main/kotlin/com/zepben/evolve/cim/iec61968/metering/UsagePoint.kt:47-55 | the equipment list follows `Add`; the end devices are untouched |
| UsagePoints.UsagePoint.RemoveEquipment | src/main/kotlin/com/zepben/evolve/cim/iec61968/metering/UsagePoint.kt:57-61 | the equipment list follows `Remove` |
| UsagePoints.UsagePoint.ClearEquipment | src/main/kotlin/com/zepben/evolve/cim/iec61968/metering/UsagePoint.kt:63-66 | no equipment is left |
| UsagePoints.UsagePoint.AddEndDevice | src/main/kotlin/com/zepben/evolve/cim/iec61968/metering/UsagePoint.kt:86-94 | the end-device list follows `Add`; the equipment is untouched |
| UsagePoints.UsagePoint.RemoveEndDevice | src/main/kotlin/com/zepben/evolve/cim/iec61968/metering/UsagePoint.kt:96-100 | the end-device list follows `Remove` |
| UsagePoints.UsagePoint.ClearEndDevices | src/main/kotlin/com/zepben/evolve/cim/iec61968/metering/UsagePoint.kt:102-105 | no end device is left |
| ComparatorOptions.All | src/main/kotlin/com/zepben/evolve/services/network/NetworkServiceCompatatorOptions.kt:19-27 | every comparison is switched on |
| ComparatorOptions.None | src/main/kotlin/com/zepben/evolve/services/network/NetworkServiceCompatatorOptions.kt:29-37 | every comparison is switched off |
| ComparatorOptions.TurnOn | src/main/kotlin/com/zepben/evolve/services/network/NetworkServiceCompatatorOptions.kt:49-72 | the chosen comparison is switched on and the others are kept |
| ComparatorOptions.TurnOnIdempotentAndCommutative | src/main/kotlin/com/zepben/evolve/services/network/NetworkServiceCompatatorOptions.kt:49-72 | builder calls can repeat and come in any order |
| ComparatorOptions.EveryFlagGivesAll | src/main/kotlin/com/zepben/evolve/services/network/NetworkServiceCompatatorOptions.kt:19-82 | a builder with every comparison switched on builds `all()` |
| ComparatorOptions.Builder.constructor | src/main/kotlin/com/zepben/evolve/services/network/NetworkServiceCompatatorOptions.kt:43-48 | a new builder builds `none()` |
| ComparatorOptions.Builder.ComparePhases | src/main/kotlin/com/zepben/evolve/services/network/NetworkServiceCompatatorOptions.kt:54-57 | the builder now also compares traced phases, and returns itself |
| ComparatorOptions.Builder.CompareTerminals | src/main/kotlin/com/zepben/evolve/services/network/NetworkServiceCompatatorOptions.kt:49-52 | the builder now also compares terminals, and returns itself |
| ComparatorOptions.Builder.CompareFeederEquipment | src/main/kotlin/com/zepben/evolve/services/network/NetworkServiceCompatatorOptions.kt:59-62 | the builder now also compares feeder equipment, and returns itself |
| ComparatorOptions.Builder.CompareEquipmentContainers | src/main/kotlin/com/zepben/evolve/services/network/NetworkServiceCompatatorOptions.kt:64-67 | the builder now also compares equipment containers, and returns itself |
| ComparatorOptions.Builder.CompareLvSimplification | src/main/kotlin/com/zepben/evolve/services/network/NetworkServiceCompatatorOptions.kt:69-72 | the builder now also compares LV simplification, and returns itself |
| ComparatorOptions.Builder.Build | src/main/kotlin/com/zepben/evolve/services/network/NetworkServiceCompatatorOptions.kt:74-82 | the options carry the builder's flags, `comparePhases` as `compareTracedPhases`; every flag set builds `all()`, none builds `none()` |
| GrpcResults.Of | src/main/java/com/zepben/cimbend/grpc/GrpcResult.kt:35-38 | a successful result with the given value and no exception |
| GrpcResults.OfError | src/main/java/com/zepben/cimbend/grpc/GrpcResult.kt:40-43 | an unsuccessful result with no value and the exception |
| GrpcResults.Outcome | src/main/java/com/zepben/cimbend/grpc/GrpcResult.kt:21-31 | a well-formed result is a success exactly when the call was successful |
| NetworkContainers.ClassAt | src/main/kotlin/com/zepben/evolve/metrics/NetworkContainer.kt:27-36 | each network level has the container class that maps to it |
| NetworkContainers.ToNetworkContainer | src/main/kotlin/com/zepben/evolve/metrics/NetworkContainer.kt:11-15 | a container becomes a partial network container with its class's level, mRID and name |
| NetworkContainers.FromNetworkContainer | src/main/kotlin/com/zepben/evolve/metrics/NetworkContainer.kt:9-17 | only the total network has no container |
| NetworkContainers.LevelOfIsInjective | src/main/kotlin/com/zepben/evolve/metrics/NetworkContainer.kt:27-36 | different container classes map to different levels |
| NetworkContainers.ToNetworkContainerRoundTrip | src/main/kotlin/com/zepben/evolve/metrics/NetworkContainer.kt:11-36 | container to network container and back is the identity, and so is the reverse for partial containers |
| SourceFiles.SourceMetadata.Equals | src/main/kotlin/com/zepben/evolve/metrics/SourceMetadata.kt:24-36 | equality ignores the timestamp: both hashes null, or both present with equal contents |
| SourceFiles.SourceMetadata.HashCode | src/main/kotlin/com/zepben/evolve/metrics/SourceMetadata.kt:38-40 | the content hash of the file hash, 0 when it is null, a 32-bit value |
| SourceFiles.EqualsIffSameFileHash | src/main/kotlin/com/zepben/evolve/metrics/SourceMetadata.kt:24-36 | two metadata objects are equal exactly when their file hashes have the same contents |
| SourceFiles.EqualsIsEquivalence | src/main/kotlin/com/zepben/evolve/metrics/SourceMetadata.kt:24-36 | equality is reflexive, symmetric and transitive |
| SourceFiles.HashCodeConsistentWithEquals | src/main/kotlin/com/zepben/evolve/metrics/SourceMetadata.kt:24-40 | equal metadata have equal hash codes |
| SourceFiles.DifferentContentsHashApart | src/main/kotlin/com/zepben/evolve/metrics/SourceMetadata.kt:38-40 | the hash is by content: `ABC` and `XYZ` hash to 94369 and 117208 |
| JobSourceTables.JobSources.Get | src/main/kotlin/com/zepben/evolve/metrics/JobSources.kt:30 | a known name gives its metadata without change; an unknown one gets fresh, empty metadata; no other entry changes |
| NetworkMetricsTables.NetworkMetrics.Get | src/main/kotlin/com/zepben/evolve/metrics/NetworkMetrics.kt:38 | a known container gives its metrics without change; an unknown one gets a fresh, empty table; no other entry changes |
| NetworkMetricsTables.ContainerMetrics.Put | src/main/kotlin/com/zepben/evolve/metrics/NetworkMetrics.kt:14 | writing a metric into a container's table sets that name and keeps every other |
| NetworkMetricsTables.NetworkMetrics.GetPutGet | src/main/kotlin/com/zepben/evolve/metrics/NetworkMetrics.kt:26-40 | a value written into a container's table is seen by the next lookup of that container |
| IngestionOrders.NullsPlacement | src/main/kotlin/com/zepben/evolve/metrics/IngestionJobCollection.kt:17-19 | in oldest-first order null start times sort last, and in newest-first order they sort first |
| IngestionOrders.KeyLeIsTotalPreorder | src/main/kotlin/com/zepben/evolve/metrics/IngestionJobCollection.kt:17-19 | both orders are total preorders, as the sort requires |
| IngestionOrders.SortedKeysSpec | src/main/kotlin/com/zepben/evolve/metrics/IngestionJobCollection.kt:17-19 | the sorted keys are each key exactly once, ordered by start time, and keys with the same start time stay in insertion order |
| IngestionOrders.SortedValuesSpec | src/main/kotlin/com/zepben/evolve/metrics/IngestionJobCollection.kt:17-19 | the sorted values are every stored value once, ordered by start time, and values with the same start time stay in the map's insertion order |
| IngestionJobs.IngestionJobCollection.ContainsText | src/main/kotlin/com/zepben/evolve/metrics/IngestionJobCollection.kt:29 | a text that is not a UUID is an error; otherwise membership of the UUID |
| IngestionJobs.IngestionJobCollection.constructor | src/main/kotlin/com/zepben/evolve/metrics/IngestionJobCollection.kt:13-15 | a new collection is empty, with an empty iteration order |
| IngestionJobs.IngestionJobCollection.Contains | src/main/kotlin/com/zepben/evolve/metrics/IngestionJobCollection.kt:27 | an id is contained exactly when the iterator lists it |
| IngestionJobs.IngestionJobCollection.ContainsJob | src/main/kotlin/com/zepben/evolve/metrics/IngestionJobCollection.kt:43 | an element is contained exactly when some stored job has its id, whatever the rest of the element |
| IngestionJobs.IngestionJobCollection.ContainsAll | src/main/kotlin/com/zepben/evolve/metrics/IngestionJobCollection.kt:41 | when every element is a stored job, `contains` holds of each element |
| IngestionJobs.IngestionJobCollection.IsEmpty | src/main/kotlin/com/zepben/evolve/metrics/IngestionJobCollection.kt:37 | empty exactly when no id is contained |
| IngestionJobs.IngestionJobCollection.Count | src/main/kotlin/com/zepben/evolve/metrics/IngestionJobCollection.kt:36-37 | the number of stored jobs, zero exactly when the collection is empty |
| IngestionJobs.IngestionJobCollection.Add | src/main/kotlin/com/zepben/evolve/metrics/IngestionJobCollection.kt:21-23 | the job is stored under its id, replacing any earlier job with that id; a new id goes to the end of the iteration order and a replaced one keeps its place |
| IngestionJobs.IngestionJobCollection.Remove | src/main/kotlin/com/zepben/evolve/metrics/IngestionJobCollection.kt:25 | the job under the id is returned and removed, or none when absent; the other ids keep their order |
| IngestionJobs.IngestionJobCollection.Get | src/main/kotlin/com/zepben/evolve/metrics/IngestionJobCollection.kt:31 | a stored job is returned unchanged; an absent one is created with no metadata and empty sources and metrics, then stored at the end of the iteration order |
| IngestionJobs.IngestionJobCollection.GetText | src/main/kotlin/com/zepben/evolve/metrics/IngestionJobCollection.kt:32 | a text that is not a UUID is an error and changes nothing; otherwise as `Get` |
| IngestionJobs.IngestionJobCollection.Iterate | src/main/kotlin/com/zepben/evolve/metrics/IngestionJobCollection.kt:39 | every stored job exactly once, in the order the ids were first added |
| IngestionJobs.IngestionJobCollection.OldestFirst | src/main/kotlin/com/zepben/evolve/metrics/IngestionJobCollection.kt:17 | every stored job once, in ascending start time, jobs without one last, jobs with equal start times in insertion order |
| IngestionJobs.IngestionJobCollection.NewestFirst | src/main/kotlin/com/zepben/evolve/metrics/IngestionJobCollection.kt:19 | every stored job once, jobs without a start time first, then descending start time, jobs with equal start times in insertion order |
| IngestionJobs.ContainsMatchesIdOnly | src/main/kotlin/com/zepben/evolve/metrics/IngestionJobCollection.kt:41-43 | `contains(element)` asks only about the id, while `containsAll` compares whole jobs |
| IngestionJobs.SizeIsStale | src/main/kotlin/com/zepben/evolve/metrics/IngestionJobCollection.kt:36 | as written, `size` stays 0 while the collection holds jobs |
| IngestionMetricsCollections.IngestionMetricsCollection.constructor | src/main/kotlin/com/zepben/evolve/metrics/IngestionMetricsCollection.kt:13-15 | a new collection is empty, with an empty iteration order |
| IngestionMetricsCollections.IngestionMetricsCollection.Add | src/main/kotlin/com/zepben/evolve/metrics/IngestionMetricsCollection.kt:21-23 | the metrics are stored under their job id; a new id goes to the end of the iteration order and a replaced one keeps its place |
| IngestionMetricsCollections.IngestionMetricsCollection.PlusAssign | src/main/kotlin/com/zepben/evolve/metrics/IngestionMetricsCollection.kt:30 | the same as `add` |
| IngestionMetricsCollections.IngestionMetricsCollection.Remove | src/main/kotlin/com/zepben/evolve/metrics/IngestionMetricsCollection.kt:25 | the metrics under the id are returned and removed, or none when absent; the other ids keep their order |
| IngestionMetricsCollections.IngestionMetricsCollection.Get | src/main/kotlin/com/zepben/evolve/metrics/IngestionMetricsCollection.kt:27 | stored metrics are returned unchanged; absent ones are created empty and stored |
| IngestionMetricsCollections.IngestionMetricsCollection.GetText | src/main/kotlin/com/zepben/evolve/metrics/IngestionMetricsCollection.kt:28 | a text that is not a UUID is an error; otherwise as `get` |
| IngestionMetricsCollections.IngestionMetricsCollection.OldestFirst | src/main/kotlin/com/zepben/evolve/metrics/IngestionMetricsCollection.kt:17 | every entry once, in ascending start time, entries without one last, entries with equal start times in insertion order |
| IngestionMetricsCollections.IngestionMetricsCollection.NewestFirst | src/main/kotlin/com/zepben/evolve/metrics/IngestionMetricsCollection.kt:19 | every entry once, entries without a start time first, then descending start time, entries with equal start times in insertion order |

## Left out

- `PhaseDirection` is not part of this model's sources. It is modelled on `FeederDirection`'s code, with IN and OUT in place of UPSTREAM and DOWNSTREAM.
- `SinglePhaseKind.kt` is not part of this model. The kinds and their declaration order are the ones `PhaseCode.kt` and the phase tests use.
- The implementation of `PhaseStatus` (`TracedPhases`) is not part of this model. The status operations follow the interface's documentation and the behaviour pinned down by `TracedPhasesTest.kt`. The INVALID nominal-phase validation of that test is not modelled.
- RemovePhases: `NetworkService.connectedTerminals` is a parameter (`Connectivity`). The branch-recursive traversal's priority queue is a parameter (`Pick`) choosing the next item. Termination is by the table's set bits shrinking, not by a tracker. BasicTracker, BranchRecursiveTraversal and WeightedPriorityQueue are not modelled.
- RemovePhases: iterating a `HashMap` or `HashSet` is modelled as an unordered fold over sets and maps. The result does not depend on the order.
- Traversals.TraversalV2.Run requires a finite set closed under `queueNext` that holds the queued items. Without it the Kotlin loop need not end.
- Traversals: conditions, step actions, context computers and `queueNext` are pure functions of their arguments. Step actions are recorded by identity in `steps` rather than run, and `@Volatile` and concurrent runs are not modelled.
- Traversals: the queue is first-in first-out. `TraversalQueue` and `Tracker` are not part of this model.
- Traversals.TraversalV2: `contexts` is an `IdentityHashMap`, so Kotlin tells queued items apart by reference. The model keys contexts by value equality. When two equal but distinct items are queued from different parents, Kotlin keeps one context per object, but the model keeps one entry, holding the context of the parent that queued last.
- Traversals.TraversalV2.constructor starts with an empty queue and an empty tracker. Kotlin takes both as constructor arguments (TraversalV2.kt:27-31), so a tracker that arrives already holding items is not modelled.
- EquipmentStepLimits: `getData<Int>` on a stored value of another type is modelled as a cast error. Kotlin's unchecked cast would defer that failure to the comparison.
- EquipmentStepLimits: the Java class hierarchy is a fixed enumeration of ten conducting-equipment classes, enough to show the subclass relation.
- EquipmentStepLimits: `limit`, `nEquipmentSteps` and the stored counter are Kotlin `Int`s. The model's counters are unbounded, so `nSteps + 1` (EquipmentStepLimitCondition.kt:39) does not wrap at 2^31 - 1.
- `NetworkTrace` beyond its start step (its conditions, directions and `computeData`) is not modelled.
- Terminals.Terminal: the connectivity node is held strongly. Clearing of the `WeakReference` by the garbage collector is not modelled.
- Terminals.Terminal: normal and current traced phases live in `PhaseStatus.TracedPhasesStore`, not on the terminal.
- `AcDcTerminal`, `getByMRID`/`validateReference` and `usagePointLocation` are not part of this model's sources. Members of a usage point's collections are compared by identity.
- IdentifiedObjects: `UUID.randomUUID()` is a nondeterministic choice of a random UUID string. `toString` is not modelled.
- GrpcResults: `equals`, `hashCode` and `toString` of the data class are structural and are not modelled separately.
- GrpcResults.Outcome requires `WellFormed`, the combination the property documentation describes. The data-class constructor is public, so Kotlin can also build a successful result that carries an exception, or a failed one that carries a result; `Outcome` says nothing about those.
- IngestionJob.kt and IngestionMetadata.kt are not part of this model. Their fields are taken from the tests.
- Ingestion jobs and metrics are values that hold references to their sources and metrics tables. In-place updates of a job's metadata are not captured.
- IngestionJobs: `UUID.fromString` is a parameter that returns none for malformed text.
- IngestionJobs.IngestionJobCollection.Iterate returns the jobs as a sequence in iteration order rather than a lazy iterator. Removing through the iterator is not modelled.
- SourceFiles.SourceMetadata.Equals: only other `SourceMetadata` objects (or null) are compared. A comparison with any other type, which the source answers false, is not modelled.
- SourceFiles.SourceMetadata: the `ByteArray` is a value. Aliasing of the array between objects is not modelled.
- NetworkMetricsTables: `Double` is an opaque 64-bit pattern, and no arithmetic is done on it.
- NetworkMetricsTables and JobSourceTables: the `entries` views are the maps themselves. A set of entry objects is not built.
- Serialising, database reading and writing, gRPC transport and the translators are outside the core and not modelled.

## Findings

| source | as written | input that shows it | evidently intended | confidence | as-written member | corrected member |
|---|---|---|---|---|---|---|
| src/main/kotlin/com/zepben/evolve/metrics/IngestionJobCollection.kt:36 | `override val size = jobsByUUID.size` is evaluated once, when the collection is built | build an empty collection, `add` one job, then read `size`: it is 0 although `isEmpty()` is false | `size` tracks the number of stored jobs (`get() = jobsByUUID.size`) | not executed | IngestionJobs.SizeIsStale | IngestionJobs.IngestionJobCollection.Count |
| src/main/kotlin/com/zepben/evolve/services/network/tracing/networktrace/conditions/EquipmentStepLimitCondition.kt:39 | `nextItem.toEquipment::class.java.isAssignableFrom(equipmentType)` asks whether the configured class is a subclass of the equipment's class | a condition on `Switch`, with a step onto a `Breaker`: the counter is not incremented, though a Breaker is a Switch | count steps onto instances of the configured class (`equipmentType.isAssignableFrom(toEquipment::class.java)`) | not executed | EquipmentStepLimits.AsWrittenMissesSubclass | EquipmentStepLimits.CounterCountsTypedSteps |
