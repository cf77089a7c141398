/**
 * The generic traversal engine of the network trace: a run/reset state
 * machine around a worklist loop. Each item taken from the queue is visited
 * at most once (the tracker), is checked against the stop conditions, has
 * the step actions applied to it and, unless it is a stop point, has its
 * successors offered to `queueItem`, which admits them through the queue
 * conditions and records their step context.
 *
 * Conditions, step actions, context computers and `queueNext` are the
 * caller's callbacks; here they are pure functions. The actions' effects are
 * recorded in `steps`, one entry per visited item.
 */
module Traversals {
  import opened Wrappers
  import opened StepContexts

  type Condition<!T> = (T, Context) -> bool
  type ComputeContext<!T> = (T, string, Context) -> Value

  /** A registered step action: always applied, or only on non-stopping / stopping items. */
  datatype StepAction = Always(id: nat) | IfNotStopping(id: nat) | IfStopping(id: nat)

  predicate Fires(a: StepAction, isStopping: bool)
  {
    match a
    case Always(_) => true
    case IfNotStopping(_) => !isStopping
    case IfStopping(_) => isStopping
  }

  /** The actions that take effect, in registration order. */
  function Fired(actions: seq<StepAction>, isStopping: bool): (r: seq<StepAction>)
    ensures |r| <= |actions|
    ensures forall a :: a in r <==> a in actions && Fires(a, isStopping)
  {
    if actions == [] then []
    else (if Fires(actions[0], isStopping) then [actions[0]] else []) + Fired(actions[1..], isStopping)
  }

  /** `stopConditions.fold(false) { stop, c -> stop or c(item, context) }`. */
  function FoldAny<T>(conditions: seq<Condition<T>>, item: T, context: Context, stop: bool): bool
    decreases |conditions|
  {
    if conditions == [] then stop
    else FoldAny(conditions[1..], item, context, stop || conditions[0](item, context))
  }

  function MatchesAny<T>(conditions: seq<Condition<T>>, item: T, context: Context): bool
  {
    FoldAny(conditions, item, context, false)
  }

  lemma {:induction false} FoldAnyMeaning<T>(conditions: seq<Condition<T>>, item: T, context: Context, stop: bool)
    ensures FoldAny(conditions, item, context, stop)
        <==> stop || exists i :: 0 <= i < |conditions| && conditions[i](item, context)
    decreases |conditions|
  {
    if conditions != [] {
      FoldAnyMeaning(conditions[1..], item, context, stop || conditions[0](item, context));
      var tail := conditions[1..];
      assert forall i :: 0 <= i < |tail| ==> tail[i] == conditions[i + 1];
      if exists i :: 0 <= i < |conditions| && conditions[i](item, context) {
        var i :| 0 <= i < |conditions| && conditions[i](item, context);
        if i > 0 {
          assert tail[i - 1](item, context);
        }
      }
    }
  }

  /** The stop check matches iff some registered condition matches. */
  lemma MatchesAnyMeaning<T>(conditions: seq<Condition<T>>, item: T, context: Context)
    ensures MatchesAny(conditions, item, context)
        <==> exists i :: 0 <= i < |conditions| && conditions[i](item, context)
  {
    FoldAnyMeaning(conditions, item, context, false);
  }

  /** `queueConditions.all { it(item, context) }`. */
  predicate MatchesAll<T>(conditions: seq<Condition<T>>, item: T, context: Context)
    decreases |conditions|
  {
    conditions == [] || (conditions[0](item, context) && MatchesAll(conditions[1..], item, context))
  }

  lemma {:induction false} MatchesAllMeaning<T>(conditions: seq<Condition<T>>, item: T, context: Context)
    ensures MatchesAll(conditions, item, context)
        <==> forall i :: 0 <= i < |conditions| ==> conditions[i](item, context)
    decreases |conditions|
  {
    if conditions != [] {
      MatchesAllMeaning(conditions[1..], item, context);
      var tail := conditions[1..];
      assert forall i :: 0 <= i < |tail| ==> tail[i] == conditions[i + 1];
      if forall i :: 0 <= i < |tail| ==> tail[i](item, context) {
        forall i | 1 <= i < |conditions|
          ensures conditions[i](item, context)
        {
          assert tail[i - 1](item, context);
        }
      }
    }
  }

  /** The data of the next context: null without computers, else one entry per computer. */
  function NextData<T>(funs: map<string, ComputeContext<T>>, next: T, context: Context): Option<map<string, Value>>
  {
    if funs == map[] then None else Some(map k | k in funs :: funs[k](next, k, context))
  }

  /** `StepContext(context.stepNumber + 1, newContextData)`. */
  function NextContext<T>(funs: map<string, ComputeContext<T>>, next: T, context: Context): Context
  {
    Context(context.stepNumber + 1, NextData(funs, next, context), false)
  }

  /** The next context is one step further, not stopping, and holds exactly the computed values. */
  lemma NextContextMeaning<T>(funs: map<string, ComputeContext<T>>, next: T, context: Context, key: string)
    ensures NextContext(funs, next, context).stepNumber == context.stepNumber + 1
    ensures !NextContext(funs, next, context).isStopping
    ensures NextContext(funs, next, context).data.None? <==> funs == map[]
    ensures NextContext(funs, next, context).GetData(key)
         == if key in funs then funs[key](next, key, context) else Null
  {
  }

  /** The items of `items` that pass every queue condition, in order. */
  function Admitted<T(!new)>(conditions: seq<Condition<T>>, items: seq<T>, context: Context): (r: seq<T>)
    ensures |r| <= |items|
  {
    if items == [] then []
    else
      var last := items[|items| - 1];
      Admitted(conditions, items[..|items| - 1], context)
        + (if MatchesAll(conditions, last, context) then [last] else [])
  }

  /** Of the items offered, exactly those that pass every queue condition are admitted. */
  lemma {:induction false} AdmittedMeaning<T(!new)>(conditions: seq<Condition<T>>, items: seq<T>, context: Context)
    ensures forall y :: y in Admitted(conditions, items, context) <==> y in items && MatchesAll(conditions, y, context)
  {
    if items != [] {
      var last := items[|items| - 1];
      AdmittedMeaning(conditions, items[..|items| - 1], context);
      assert forall y :: y in items <==> y in items[..|items| - 1] || y == last;
    }
  }

  lemma AdmittedStep<T(!new)>(conditions: seq<Condition<T>>, items: seq<T>, i: nat, context: Context)
    requires i < |items|
    ensures Admitted(conditions, items[..i + 1], context)
         == Admitted(conditions, items[..i], context) + (if MatchesAll(conditions, items[i], context) then [items[i]] else [])
  {
    assert items[..i + 1][..i] == items[..i];
  }

  /** The contexts recorded for admitted items. */
  function NextContexts<T(!new)>(funs: map<string, ComputeContext<T>>, admitted: seq<T>, context: Context): map<T, Context>
  {
    map y | y in admitted :: NextContext(funs, y, context)
  }

  lemma NextContextsStep<T(!new)>(m: map<T, Context>, funs: map<string, ComputeContext<T>>, admitted: seq<T>, y: T, context: Context)
    ensures (m + NextContexts(funs, admitted, context))[y := NextContext(funs, y, context)]
         == m + NextContexts(funs, admitted + [y], context)
  {
  }

  /** Every successor of an item of `universe` is in `universe`: the traversal space is finite. */
  ghost predicate Closed<T>(next: (T, Context) -> seq<T>, universe: set<T>)
  {
    forall x, c, j :: x in universe && 0 <= j < |next(x, c)| ==> next(x, c)[j] in universe
  }

  datatype TraversalError = AlreadyRunning | MustReset | CurrentlyRunning

  /**
   * One visit: the item, the context the step actions saw (with its stopping
   * flag set), the actions that took effect, and the successors queued.
   */
  datatype Step<T> = Step(item: T, context: Context, fired: seq<StepAction>, queued: seq<T>)

  /** The callbacks a run applies; they do not change while it runs. */
  datatype Rules<!T> = Rules(stopConditions: seq<Condition<T>>, queueConditions: seq<Condition<T>>,
                             stepActions: seq<StepAction>, queueNext: (T, Context) -> seq<T>)

  /**
   * A visit made when `canStop` held: the stop conditions saw the stored
   * context (not yet stopping), the actions that fire depend only on the
   * stopping flag, and successors are offered only when not stopping.
   */
  ghost predicate Follows<T(!new)>(s: Step<T>, canStop: bool, rules: Rules<T>)
  {
    && s.context.isStopping == (canStop && MatchesAny(rules.stopConditions, s.item, s.context.(isStopping := false)))
    && s.fired == Fired(rules.stepActions, s.context.isStopping)
    && s.queued == (if s.context.isStopping then []
                    else Admitted(rules.queueConditions, rules.queueNext(s.item, s.context), s.context))
  }

  /** The items of a run of visits. */
  ghost function Visited<T>(s: seq<Step<T>>): set<T>
  {
    if s == [] then {} else Visited(s[..|s| - 1]) + {s[|s| - 1].item}
  }

  lemma {:induction false} VisitedMeaning<T>(s: seq<Step<T>>, x: T)
    ensures x in Visited(s) <==> exists k :: 0 <= k < |s| && s[k].item == x
  {
    if s != [] {
      VisitedMeaning(s[..|s| - 1], x);
      if x in Visited(s[..|s| - 1]) {
        var k :| 0 <= k < |s| - 1 && s[..|s| - 1][k].item == x;
        assert s[k].item == x;
      }
    }
  }

  /** The visits from `base` on are of pairwise different items. */
  ghost predicate Distinct<T>(steps: seq<Step<T>>, base: nat)
  {
    forall k, l :: base <= k < l < |steps| ==> steps[k].item != steps[l].item
  }

  /** Every item admitted by a visit from `base` on has been visited or is still queued. */
  ghost predicate Covered<T>(steps: seq<Step<T>>, base: nat, tracker: set<T>, queue: seq<T>)
  {
    forall k, j :: base <= k < |steps| && 0 <= j < |steps[k].queued| ==>
      steps[k].queued[j] in tracker || steps[k].queued[j] in queue
  }

  lemma CoveredAfterSkip<T>(steps: seq<Step<T>>, base: nat, tracker: set<T>, queue: seq<T>)
    requires queue != [] && queue[0] in tracker && Covered(steps, base, tracker, queue)
    ensures Covered(steps, base, tracker, queue[1..])
  {
    forall k, j | base <= k < |steps| && 0 <= j < |steps[k].queued|
      ensures steps[k].queued[j] in tracker || steps[k].queued[j] in queue[1..]
    {
      var w := steps[k].queued[j];
      if w !in tracker {
        assert w in queue && w != queue[0];
      }
    }
  }

  lemma CoveredAfterVisit<T>(steps: seq<Step<T>>, base: nat, tracker: set<T>, queue: seq<T>, s: Step<T>)
    requires queue != [] && s.item == queue[0] && base <= |steps| && Covered(steps, base, tracker, queue)
    ensures Covered(steps + [s], base, tracker + {s.item}, queue[1..] + s.queued)
  {
    var steps', queue' := steps + [s], queue[1..] + s.queued;
    forall k, j | base <= k < |steps'| && 0 <= j < |steps'[k].queued|
      ensures steps'[k].queued[j] in tracker + {s.item} || steps'[k].queued[j] in queue'
    {
      var w := steps'[k].queued[j];
      if k < |steps| {
        assert steps'[k] == steps[k];
        if w !in tracker + {s.item} {
          assert w in queue && w != queue[0];
          assert w in queue[1..];
        }
      } else {
        assert w in s.queued;
      }
    }
  }

  lemma DistinctAfterVisit<T>(steps: seq<Step<T>>, base: nat, s: Step<T>)
    requires base <= |steps| && Distinct(steps, base) && s.item !in Visited(steps[base..])
    ensures Distinct(steps + [s], base)
  {
    forall k | base <= k < |steps|
      ensures steps[k].item != s.item
    {
      VisitedMeaning(steps[base..], s.item);
      assert steps[base..][k - base] == steps[k];
    }
  }

  /**
   * What holds between iterations of `doRun`, for the visits from `base` on:
   * the visited items are exactly the tracker and pairwise distinct, each
   * visit follows the rules, everything admitted is visited or still queued,
   * and the first visit is of the first queued item `q0[0]` with its
   * recorded context `c0[q0[0]]`, exempt from stopping unless `first`.
   */
  ghost predicate RunState<T(!new)>(rules: Rules<T>, queue: seq<T>, tracker: set<T>, steps: seq<Step<T>>,
                                    contexts: map<T, Context>, base: nat, universe: set<T>,
                                    first: bool, q0: seq<T>, c0: map<T, Context>)
  {
    && base <= |steps|
    && (forall i :: 0 <= i < |queue| ==> queue[i] in universe)
    && tracker <= universe
    && tracker == Visited(steps[base..])
    && Distinct(steps, base)
    && Covered(steps, base, tracker, queue)
    && (forall k :: base <= k < |steps| ==> Follows(steps[k], k > base || first, rules))
    && (|steps| == base ==> queue == q0 && contexts == c0 && tracker == {})
    && (|steps| > base && q0 != [] ==>
          steps[base].item == q0[0] && q0[0] in c0 && steps[base].context.(isStopping := false) == c0[q0[0]])
  }

  /** Dropping an item already visited keeps the run state. */
  lemma RunStateAfterSkip<T(!new)>(rules: Rules<T>, queue: seq<T>, tracker: set<T>, steps: seq<Step<T>>,
                                   contexts: map<T, Context>, base: nat, universe: set<T>,
                                   first: bool, q0: seq<T>, c0: map<T, Context>)
    requires RunState(rules, queue, tracker, steps, contexts, base, universe, first, q0, c0)
    requires queue != [] && queue[0] in tracker
    ensures RunState(rules, queue[1..], tracker, steps, contexts, base, universe, first, q0, c0)
  {
    CoveredAfterSkip(steps, base, tracker, queue);
  }

  /** Visiting the first queued item, not yet visited, keeps the run state. */
  lemma RunStateAfterVisit<T(!new)>(rules: Rules<T>, queue: seq<T>, tracker: set<T>, steps: seq<Step<T>>,
                                    contexts: map<T, Context>, base: nat, universe: set<T>,
                                    first: bool, q0: seq<T>, c0: map<T, Context>,
                                    s: Step<T>, contexts': map<T, Context>)
    requires RunState(rules, queue, tracker, steps, contexts, base, universe, first, q0, c0)
    requires Closed(rules.queueNext, universe)
    requires queue != [] && queue[0] !in tracker && s.item == queue[0]
    requires queue[0] in contexts && s.context.(isStopping := false) == contexts[queue[0]]
    requires Follows(s, |steps| > base || first, rules)
    ensures RunState(rules, queue[1..] + s.queued, tracker + {s.item}, steps + [s], contexts',
                     base, universe, first, q0, c0)
  {
    forall y | y in s.queued
      ensures y in universe
    {
      AdmittedMeaning(rules.queueConditions, rules.queueNext(s.item, s.context), s.context);
      var j :| 0 <= j < |rules.queueNext(s.item, s.context)| && rules.queueNext(s.item, s.context)[j] == y;
    }
    CoveredAfterVisit(steps, base, tracker, queue, s);
    DistinctAfterVisit(steps, base, s);
    assert (steps + [s])[base..] == steps[base..] + [s];
    assert forall k :: base <= k < |steps| ==> (steps + [s])[k] == steps[k];
  }

  /** The last visit in `[base, n)` that queued `y`, if any. */
  ghost function LastQueuer<T>(steps: seq<Step<T>>, base: nat, n: nat, y: T): (r: Option<nat>)
    requires base <= n <= |steps|
    ensures r.Some? ==> base <= r.value < n && y in steps[r.value].queued
    decreases n - base
  {
    if n == base then None
    else if y in steps[n - 1].queued then Some(n - 1)
    else LastQueuer(steps, base, n - 1, y)
  }

  /** No visit after the last queuer (or, without one, no visit at all in `[base, n)`) queued `y`. */
  lemma {:induction false} LastQueuerIsLast<T>(steps: seq<Step<T>>, base: nat, n: nat, y: T, l: nat)
    requires base <= n <= |steps| && base <= l < n
    requires LastQueuer(steps, base, n, y).Some? ==> LastQueuer(steps, base, n, y).value < l
    ensures y !in steps[l].queued
    decreases n - base
  {
    if y !in steps[n - 1].queued && l < n - 1 {
      LastQueuerIsLast(steps, base, n - 1, y, l);
    }
  }

  /** Only the visits before `n` matter. */
  lemma {:induction false} LastQueuerPrefix<T>(steps: seq<Step<T>>, s: Step<T>, base: nat, n: nat, y: T)
    requires base <= n <= |steps|
    ensures LastQueuer(steps + [s], base, n, y) == LastQueuer(steps, base, n, y)
    decreases n - base
  {
    if n > base {
      assert (steps + [s])[n - 1] == steps[n - 1];
      LastQueuerPrefix(steps, s, base, n - 1, y);
    }
  }

  /**
   * `ctx` is the context `y` was queued with: the one computed from the
   * context of the last visit before `n` that queued it, or, if no visit
   * did, the one it held when the run began.
   */
  ghost predicate ContextFrom<T>(steps: seq<Step<T>>, base: nat, n: nat, y: T,
                                 funs: map<string, ComputeContext<T>>, c0: map<T, Context>, ctx: Context)
    requires base <= n <= |steps|
  {
    match LastQueuer(steps, base, n, y)
    case Some(j) => ctx == NextContext(funs, y, steps[j].context)
    case None => y in c0 && ctx == c0[y]
  }

  lemma ContextFromPrefix<T>(steps: seq<Step<T>>, s: Step<T>, base: nat, n: nat, y: T,
                             funs: map<string, ComputeContext<T>>, c0: map<T, Context>, ctx: Context)
    requires base <= n <= |steps|
    ensures ContextFrom(steps + [s], base, n, y, funs, c0, ctx) == ContextFrom(steps, base, n, y, funs, c0, ctx)
  {
    LastQueuerPrefix(steps, s, base, n, y);
    var q := LastQueuer(steps, base, n, y);
    if q.Some? {
      assert (steps + [s])[q.value] == steps[q.value];
    }
  }

  /**
   * A queued item not yet visited holds the context it was queued with, and
   * was queued either before the run (`q0`) or by a visit of the run.
   */
  ghost predicate PendingFrom<T>(funs: map<string, ComputeContext<T>>, tracker: set<T>, steps: seq<Step<T>>,
                                 contexts: map<T, Context>, base: nat, q0: seq<T>, c0: map<T, Context>, y: T)
    requires base <= |steps|
  {
    && (y !in tracker ==> y in contexts && ContextFrom(steps, base, |steps|, y, funs, c0, contexts[y]))
    && (y in q0 || LastQueuer(steps, base, |steps|, y).Some?)
  }

  /** Visit `k` saw the context its item was queued with, and the item was queued before the run or by an earlier visit. */
  ghost predicate VisitedFrom<T>(funs: map<string, ComputeContext<T>>, steps: seq<Step<T>>, base: nat,
                                 q0: seq<T>, c0: map<T, Context>, k: nat)
    requires base <= k < |steps|
  {
    && ContextFrom(steps, base, k, steps[k].item, funs, c0, steps[k].context.(isStopping := false))
    && (steps[k].item in q0 || LastQueuer(steps, base, k, steps[k].item).Some?)
  }

  /** Where contexts come from, for the queue and for the visits from `base` on. */
  ghost predicate Provenance<T>(funs: map<string, ComputeContext<T>>, queue: seq<T>, tracker: set<T>,
                                steps: seq<Step<T>>, contexts: map<T, Context>, base: nat,
                                q0: seq<T>, c0: map<T, Context>)
  {
    && base <= |steps|
    && (forall y {:trigger PendingFrom(funs, tracker, steps, contexts, base, q0, c0, y)} :: y in queue ==>
          PendingFrom(funs, tracker, steps, contexts, base, q0, c0, y))
    && VisitProvenance(funs, steps, base, q0, c0)
  }

  ghost predicate VisitProvenance<T>(funs: map<string, ComputeContext<T>>, steps: seq<Step<T>>, base: nat,
                                     q0: seq<T>, c0: map<T, Context>)
  {
    forall k {:trigger VisitedFrom(funs, steps, base, q0, c0, k)} :: base <= k < |steps| ==>
      VisitedFrom(funs, steps, base, q0, c0, k)
  }

  lemma ProvenanceStart<T>(funs: map<string, ComputeContext<T>>, steps: seq<Step<T>>, base: nat,
                           q0: seq<T>, c0: map<T, Context>)
    requires base == |steps| && forall i :: 0 <= i < |q0| ==> q0[i] in c0
    ensures Provenance(funs, q0, {}, steps, c0, base, q0, c0)
  {
    forall y | y in q0
      ensures PendingFrom(funs, {}, steps, c0, base, q0, c0, y)
    {
    }
  }

  lemma ProvenanceAfterSkip<T>(funs: map<string, ComputeContext<T>>, queue: seq<T>, tracker: set<T>,
                               steps: seq<Step<T>>, contexts: map<T, Context>, base: nat,
                               q0: seq<T>, c0: map<T, Context>)
    requires Provenance(funs, queue, tracker, steps, contexts, base, q0, c0) && queue != []
    ensures Provenance(funs, queue[1..], tracker, steps, contexts, base, q0, c0)
  {
    forall y | y in queue[1..]
      ensures PendingFrom(funs, tracker, steps, contexts, base, q0, c0, y)
    {
      assert y in queue;
    }
  }

  /** A newly queued item holds the context computed from the visit that queued it. */
  lemma ProvenanceQueued<T(!new)>(funs: map<string, ComputeContext<T>>, tracker: set<T>, steps: seq<Step<T>>, base: nat,
                                  q0: seq<T>, c0: map<T, Context>, s: Step<T>, m: map<T, Context>, y: T)
    requires base <= |steps| && y in s.queued
    ensures PendingFrom(funs, tracker, steps + [s], m + NextContexts(funs, s.queued, s.context), base, q0, c0, y)
  {
    assert LastQueuer(steps + [s], base, |steps| + 1, y) == Some(|steps|);
  }

  /** An item queued earlier, and neither visited nor queued again, keeps its context. */
  lemma ProvenancePending<T(!new)>(funs: map<string, ComputeContext<T>>, tracker: set<T>, steps: seq<Step<T>>,
                                   contexts: map<T, Context>, base: nat, q0: seq<T>, c0: map<T, Context>,
                                   s: Step<T>, y: T)
    requires base <= |steps| && y !in s.queued
    requires PendingFrom(funs, tracker, steps, contexts, base, q0, c0, y)
    ensures PendingFrom(funs, tracker + {s.item}, steps + [s],
                        contexts[s.item := s.context] + NextContexts(funs, s.queued, s.context), base, q0, c0, y)
  {
    LastQueuerPrefix(steps, s, base, |steps|, y);
    assert LastQueuer(steps + [s], base, |steps| + 1, y) == LastQueuer(steps, base, |steps|, y);
    if y !in tracker + {s.item} {
      assert (contexts[s.item := s.context] + NextContexts(funs, s.queued, s.context))[y] == contexts[y];
      ContextFromPrefix(steps, s, base, |steps|, y, funs, c0, contexts[y]);
    }
  }

  /** A visit already made keeps where its context came from. */
  lemma ProvenanceEarlier<T>(funs: map<string, ComputeContext<T>>, steps: seq<Step<T>>, base: nat,
                             q0: seq<T>, c0: map<T, Context>, s: Step<T>, k: nat)
    requires base <= k < |steps| && VisitProvenance(funs, steps, base, q0, c0)
    ensures VisitedFrom(funs, steps + [s], base, q0, c0, k)
  {
    assert VisitedFrom(funs, steps, base, q0, c0, k);
    assert (steps + [s])[k] == steps[k];
    ContextFromPrefix(steps, s, base, k, steps[k].item, funs, c0, steps[k].context.(isStopping := false));
    LastQueuerPrefix(steps, s, base, k, steps[k].item);
  }

  /** The new visit saw the context its item was queued with. */
  lemma ProvenanceVisited<T>(funs: map<string, ComputeContext<T>>, queue: seq<T>, tracker: set<T>,
                             steps: seq<Step<T>>, contexts: map<T, Context>, base: nat,
                             q0: seq<T>, c0: map<T, Context>, s: Step<T>)
    requires Provenance(funs, queue, tracker, steps, contexts, base, q0, c0)
    requires queue != [] && queue[0] !in tracker && s.item == queue[0]
    requires queue[0] in contexts && s.context.(isStopping := false) == contexts[queue[0]]
    ensures VisitedFrom(funs, steps + [s], base, q0, c0, |steps|)
  {
    assert PendingFrom(funs, tracker, steps, contexts, base, q0, c0, queue[0]);
    assert (steps + [s])[|steps|] == s;
    ContextFromPrefix(steps, s, base, |steps|, s.item, funs, c0, contexts[queue[0]]);
    LastQueuerPrefix(steps, s, base, |steps|, s.item);
  }

  /** Visiting the first queued item with its recorded context, and queueing `s.queued` with contexts computed from it. */
  lemma ProvenanceAfterVisit<T(!new)>(funs: map<string, ComputeContext<T>>, queue: seq<T>, tracker: set<T>,
                                      steps: seq<Step<T>>, contexts: map<T, Context>, base: nat,
                                      q0: seq<T>, c0: map<T, Context>, s: Step<T>)
    requires Provenance(funs, queue, tracker, steps, contexts, base, q0, c0)
    requires queue != [] && queue[0] !in tracker && s.item == queue[0]
    requires queue[0] in contexts && s.context.(isStopping := false) == contexts[queue[0]]
    ensures Provenance(funs, queue[1..] + s.queued, tracker + {s.item}, steps + [s],
                       contexts[s.item := s.context] + NextContexts(funs, s.queued, s.context), base, q0, c0)
  {
    var tracker', contexts' := tracker + {s.item}, contexts[s.item := s.context] + NextContexts(funs, s.queued, s.context);
    forall y | y in queue[1..] + s.queued
      ensures PendingFrom(funs, tracker', steps + [s], contexts', base, q0, c0, y)
    {
      if y in s.queued {
        ProvenanceQueued(funs, tracker', steps, base, q0, c0, s, contexts[s.item := s.context], y);
      } else {
        assert y in queue;
        ProvenancePending(funs, tracker, steps, contexts, base, q0, c0, s, y);
      }
    }
    forall k | base <= k < |steps| + 1
      ensures VisitedFrom(funs, steps + [s], base, q0, c0, k)
    {
      if k < |steps| {
        ProvenanceEarlier(funs, steps, base, q0, c0, s, k);
      } else {
        ProvenanceVisited(funs, queue, tracker, steps, contexts, base, q0, c0, s);
      }
    }
  }

  /**
   * Each visit saw the context its item was last queued with; and when the
   * run began from a single queued item, every later visit is of an item
   * some earlier visit queued.
   */
  lemma VisitsQueuedWith<T>(funs: map<string, ComputeContext<T>>, steps: seq<Step<T>>, base: nat,
                            q0: seq<T>, c0: map<T, Context>)
    requires base <= |steps| && VisitProvenance(funs, steps, base, q0, c0) && Distinct(steps, base)
    requires |steps| > base && q0 != [] ==> steps[base].item == q0[0]
    ensures forall k :: base <= k < |steps| ==>
      ContextFrom(steps, base, k, steps[k].item, funs, c0, steps[k].context.(isStopping := false))
    ensures |q0| == 1 ==> forall k :: base < k < |steps| ==> LastQueuer(steps, base, k, steps[k].item).Some?
  {
    forall k | base <= k < |steps|
      ensures ContextFrom(steps, base, k, steps[k].item, funs, c0, steps[k].context.(isStopping := false))
      ensures |q0| == 1 && k > base ==> LastQueuer(steps, base, k, steps[k].item).Some?
    {
      assert VisitedFrom(funs, steps, base, q0, c0, k);
      if |q0| == 1 && k > base {
        assert steps[k].item != steps[base].item;
        assert q0 == [steps[base].item];
      }
    }
  }

  class TraversalV2<T(==,!new)> {
    const queueNext: (T, Context) -> seq<T>
    var startItem: Option<T>
    var running: bool
    var hasRun: bool
    var stopConditions: seq<Condition<T>>
    var queueConditions: seq<Condition<T>>
    var stepActions: seq<StepAction>
    var computeNextContextFuns: map<string, ComputeContext<T>>
    var contexts: map<T, Context>
    var queue: seq<T>
    var tracker: set<T>
    var steps: seq<Step<T>>

    /** Every queued item has a context; an unvisited one is not yet marked stopping; a fresh traversal has an empty tracker. */
    ghost predicate Valid()
      reads this
    {
      && (forall i :: 0 <= i < |queue| ==> queue[i] in contexts)
      && (forall i :: 0 <= i < |queue| && queue[i] !in tracker ==> !contexts[queue[i]].isStopping)
      && (!hasRun ==> tracker == {})
    }

    function CurrentRules(): Rules<T>
      reads this`stopConditions, this`queueConditions, this`stepActions
    {
      Rules(stopConditions, queueConditions, stepActions, queueNext)
    }

    ghost predicate RunInvariant(base: nat, universe: set<T>, first: bool, q0: seq<T>, c0: map<T, Context>)
      reads this
    {
      && Valid() && hasRun && RunState(CurrentRules(), queue, tracker, steps, contexts, base, universe, first, q0, c0)
      && Provenance(computeNextContextFuns, queue, tracker, steps, contexts, base, q0, c0)
    }

    constructor (queueNext: (T, Context) -> seq<T>)
      ensures this.queueNext == queueNext
      ensures startItem == None && !running && !hasRun
      ensures stopConditions == [] && queueConditions == [] && stepActions == []
      ensures computeNextContextFuns == map[] && contexts == map[]
      ensures queue == [] && tracker == {} && steps == []
      ensures Valid()
    {
      this.queueNext := queueNext;
      startItem := None;
      running := false;
      hasRun := false;
      stopConditions := [];
      queueConditions := [];
      stepActions := [];
      computeNextContextFuns := map[];
      contexts := map[];
      queue := [];
      tracker := {};
      steps := [];
    }

    method AddStopCondition(condition: Condition<T>)
      modifies this`stopConditions
      ensures stopConditions == old(stopConditions) + [condition]
    {
      stopConditions := stopConditions + [condition];
    }

    method ClearStopConditions()
      modifies this`stopConditions
      ensures stopConditions == []
    {
      stopConditions := [];
    }

    method CopyStopConditions(other: TraversalV2<T>)
      modifies this`stopConditions
      ensures stopConditions == old(stopConditions) + old(other.stopConditions)
    {
      stopConditions := stopConditions + other.stopConditions;
    }

    method AddQueueCondition(condition: Condition<T>)
      modifies this`queueConditions
      ensures queueConditions == old(queueConditions) + [condition]
    {
      queueConditions := queueConditions + [condition];
    }

    method ClearQueueConditions()
      modifies this`queueConditions
      ensures queueConditions == []
    {
      queueConditions := [];
    }

    method CopyQueueConditions(other: TraversalV2<T>)
      modifies this`queueConditions
      ensures queueConditions == old(queueConditions) + old(other.queueConditions)
    {
      queueConditions := queueConditions + other.queueConditions;
    }

    /** `addStepAction`, in all three of its forms: applied to every visited item. */
    method AddStepAction(id: nat)
      modifies this`stepActions
      ensures stepActions == old(stepActions) + [Always(id)]
    {
      stepActions := stepActions + [Always(id)];
    }

    method AddIfNotStopping(id: nat)
      modifies this`stepActions
      ensures stepActions == old(stepActions) + [IfNotStopping(id)]
    {
      stepActions := stepActions + [IfNotStopping(id)];
    }

    method AddIfStopping(id: nat)
      modifies this`stepActions
      ensures stepActions == old(stepActions) + [IfStopping(id)]
    {
      stepActions := stepActions + [IfStopping(id)];
    }

    method ClearStepActions()
      modifies this`stepActions
      ensures stepActions == []
    {
      stepActions := [];
    }

    method CopyStepActions(other: TraversalV2<T>)
      modifies this`stepActions
      ensures stepActions == old(stepActions) + old(other.stepActions)
    {
      stepActions := stepActions + other.stepActions;
    }

    /** A null computer removes the key; any other replaces what the key held. */
    method AddComputeNextContext(key: string, compute: Option<ComputeContext<T>>)
      modifies this`computeNextContextFuns
      ensures compute.None? ==> computeNextContextFuns == old(computeNextContextFuns) - {key}
      ensures compute.Some? ==> computeNextContextFuns == old(computeNextContextFuns)[key := compute.value]
    {
      if compute.None? {
        computeNextContextFuns := computeNextContextFuns - {key};
      } else {
        computeNextContextFuns := computeNextContextFuns[key := compute.value];
      }
    }

    method SetStart(item: T)
      modifies this`startItem
      ensures startItem == Some(item)
    {
      startItem := Some(item);
    }

    /** `computeNextContext`: one context entry per registered computer, evaluated on the next item. */
    method ComputeNextContext(nextStep: T, context: Context) returns (next: Context)
      ensures next.stepNumber == context.stepNumber + 1 && !next.isStopping
      ensures next == NextContext(computeNextContextFuns, nextStep, context)
    {
      var funs := computeNextContextFuns;
      var newContextData: Option<map<string, Value>> := None;
      var remaining := funs.Keys;
      ghost var done: set<string> := {};
      while remaining != {}
        invariant remaining + done == funs.Keys && remaining !! done
        invariant done == {} ==> newContextData == None
        invariant done != {} ==> newContextData == Some(map k | k in done :: funs[k](nextStep, k, context))
        decreases remaining
      {
        var key :| key in remaining;
        var data := if newContextData.Some? then newContextData.value else map[];
        assert data == map k | k in done :: funs[k](nextStep, k, context);
        newContextData := Some(data[key := funs[key](nextStep, key, context)]);
        assert data[key := funs[key](nextStep, key, context)] == map k | k in done + {key} :: funs[k](nextStep, k, context);
        remaining := remaining - {key};
        done := done + {key};
      }
      assert funs == map[] <==> done == {};
      next := Context(context.stepNumber + 1, newContextData, false);
    }

    /** `queueItem`: admitted iff every queue condition holds; only then is its context recorded. */
    method QueueItem(nextItem: T, currentContext: Context) returns (queued: bool)
      modifies this`queue, this`contexts
      ensures queued <==> MatchesAll(queueConditions, nextItem, currentContext)
      ensures queue == if queued then old(queue) + [nextItem] else old(queue)
      ensures contexts == if queued
        then old(contexts)[nextItem := NextContext(computeNextContextFuns, nextItem, currentContext)]
        else old(contexts)
    {
      queued := MatchesAll(queueConditions, nextItem, currentContext);
      if queued {
        queue := queue + [nextItem];
        var next := ComputeNextContext(nextItem, currentContext);
        contexts := contexts[nextItem := next];
      }
    }

    /** Offers each successor to `queueItem` with the current context, in order. */
    method QueueAll(items: seq<T>, context: Context) returns (admitted: seq<T>)
      modifies this`queue, this`contexts
      ensures admitted == Admitted(queueConditions, items, context)
      ensures queue == old(queue) + admitted
      ensures contexts == old(contexts) + NextContexts(computeNextContextFuns, admitted, context)
    {
      admitted := [];
      var i := 0;
      while i < |items|
        invariant 0 <= i <= |items|
        invariant admitted == Admitted(queueConditions, items[..i], context)
        invariant queue == old(queue) + admitted
        invariant contexts == old(contexts) + NextContexts(computeNextContextFuns, admitted, context)
      {
        AdmittedStep(queueConditions, items, i, context);
        var queued := QueueItem(items[i], context);
        if queued {
          NextContextsStep(old(contexts), computeNextContextFuns, admitted, items[i], context);
          assert queue == old(queue) + (admitted + [items[i]]);
          admitted := admitted + [items[i]];
        }
        i := i + 1;
      }
      assert items[..i] == items;
    }

    /** The body of the loop for an item the tracker has just accepted. */
    method Visit(current: T, canStop: bool) returns (ghost visit: Step<T>)
      requires Valid() && current in contexts && current in tracker && !contexts[current].isStopping
      modifies this`contexts, this`queue, this`steps
      ensures steps == old(steps) + [visit]
      ensures Follows(visit, canStop, CurrentRules()) && visit.item == current
      ensures visit.context.(isStopping := false) == old(contexts)[current]
      ensures queue == old(queue) + visit.queued
      ensures contexts == old(contexts)[current := visit.context]
                          + NextContexts(computeNextContextFuns, visit.queued, visit.context)
      ensures Valid()
    {
      var context := contexts[current];
      var stopping := canStop && MatchesAny(stopConditions, current, context);
      assert context.(isStopping := false) == context;
      context := context.(isStopping := stopping);
      contexts := contexts[current := context];
      var queued: seq<T> := [];
      if !stopping {
        queued := QueueAll(queueNext(current, context), context);
      }
      var step := Step(current, context, Fired(stepActions, stopping), queued);
      steps := steps + [step];
      visit := step;
      assert NextContexts(computeNextContextFuns, [], context) == map[];
      assert forall i :: 0 <= i < |queue| ==> queue[i] in old(queue) || queue[i] in queued;
    }

    /** One iteration of `doRun`: take the next item and visit it if the tracker accepts it. */
    method Advance(canStop: bool, ghost base: nat, ghost universe: set<T>,
                   ghost first: bool, ghost q0: seq<T>, ghost c0: map<T, Context>) returns (next: bool)
      requires queue != [] && Closed(queueNext, universe)
      requires RunInvariant(base, universe, first, q0, c0) && canStop == (|steps| > base || first)
      modifies this`contexts, this`queue, this`steps, this`tracker
      ensures RunInvariant(base, universe, first, q0, c0) && next == (|steps| > base || first)
      ensures |steps| >= |old(steps)| && steps[..|old(steps)|] == old(steps)
      ensures universe - tracker < old(universe - tracker) || (tracker == old(tracker) && |queue| < old(|queue|))
    {
      if queue[0] in tracker {
        SkipVisited(base, universe, first, q0, c0);
        next := canStop;
      } else {
        ghost var tr := tracker;
        ghost var current := queue[0];
        VisitNext(canStop, base, universe, first, q0, c0);
        next := true;
        assert universe - tracker < universe - tr by {
          assert current in universe - tr;
        }
      }
    }

    /** An item the tracker has seen before is dropped. */
    method SkipVisited(ghost base: nat, ghost universe: set<T>, ghost first: bool, ghost q0: seq<T>, ghost c0: map<T, Context>)
      requires queue != [] && queue[0] in tracker
      requires RunInvariant(base, universe, first, q0, c0)
      modifies this`queue
      ensures RunInvariant(base, universe, first, q0, c0) && queue == old(queue[1..])
    {
      RunStateAfterSkip(CurrentRules(), queue, tracker, steps, contexts, base, universe, first, q0, c0);
      ProvenanceAfterSkip(computeNextContextFuns, queue, tracker, steps, contexts, base, q0, c0);
      queue := queue[1..];
    }

    /** An item the tracker accepts is visited. */
    method VisitNext(canStop: bool, ghost base: nat, ghost universe: set<T>,
                     ghost first: bool, ghost q0: seq<T>, ghost c0: map<T, Context>)
      requires queue != [] && queue[0] !in tracker && Closed(queueNext, universe)
      requires RunInvariant(base, universe, first, q0, c0) && canStop == (|steps| > base || first)
      modifies this`contexts, this`queue, this`steps, this`tracker
      ensures RunInvariant(base, universe, first, q0, c0)
      ensures |steps| == |old(steps)| + 1 && steps[..|old(steps)|] == old(steps)
      ensures tracker == old(tracker) + {old(queue[0])} && old(queue[0]) in universe
    {
      ghost var q, st, tr, cx := queue, steps, tracker, contexts;
      var current := queue[0];
      queue := queue[1..];
      tracker := tracker + {current};
      ghost var rules := CurrentRules();
      ghost var visit := Visit(current, canStop);
      assert CurrentRules() == rules;
      RunStateAfterVisit(CurrentRules(), q, tr, st, cx, base, universe, first, q0, c0, visit, contexts);
      ProvenanceAfterVisit(computeNextContextFuns, q, tr, st, cx, base, q0, c0, visit);
      assert steps[..|st|] == st;
    }

    /** `doRun`: the start item first, then every queued item until the queue is empty. */
    method DoRun(canStopOnStartItem: bool, ghost universe: set<T>)
      returns (ghost first: bool, ghost q0: seq<T>, ghost c0: map<T, Context>)
      requires Valid() && tracker == {} && hasRun
      requires Closed(queueNext, universe)
      requires startItem.Some? ==> startItem.value in universe
      requires forall i :: 0 <= i < |queue| ==> queue[i] in universe
      modifies this`contexts, this`queue, this`steps, this`tracker
      ensures first == (startItem.Some? ==> canStopOnStartItem)
      ensures q0 == old(queue) + (if startItem.Some? then [startItem.value] else [])
      ensures c0 == if startItem.Some?
                    then old(contexts)[startItem.value := NextContext(computeNextContextFuns, startItem.value, Initial)]
                    else old(contexts)
      ensures Valid() && queue == []
      ensures |steps| >= |old(steps)| && steps[..|old(steps)|] == old(steps)
      ensures RunInvariant(|old(steps)|, universe, first, q0, c0)
    {
      var canStop := true;
      if startItem.Some? {
        var start := startItem.value;
        queue := queue + [start];
        canStop := canStopOnStartItem;
        var context := ComputeNextContext(start, Initial);
        contexts := contexts[start := context];
      }
      ghost var base := |steps|;
      first := canStop;
      q0 := queue;
      c0 := contexts;
      ProvenanceStart(computeNextContextFuns, steps, base, q0, c0);
      while queue != []
        invariant RunInvariant(base, universe, first, q0, c0)
        invariant canStop == (|steps| > base || first)
        invariant |steps| >= base && steps[..base] == old(steps)
        decreases universe - tracker, |queue|
      {
        ghost var st := steps;
        canStop := Advance(canStop, base, universe, first, q0, c0);
        assert steps[..base] == st[..base];
      }
    }

    /**
     * `run(canStopOnStartItem)`: refused while running and after a completed
     * run until `reset`; otherwise marks the traversal as having run, runs it
     * to an empty queue and clears `running`.
     */
    method Run(canStopOnStartItem: bool, ghost universe: set<T>) returns (r: Result<(), TraversalError>)
      requires Valid() && Closed(queueNext, universe)
      requires startItem.Some? ==> startItem.value in universe
      requires forall i :: 0 <= i < |queue| ==> queue[i] in universe
      modifies this`running, this`hasRun, this`contexts, this`queue, this`steps, this`tracker
      ensures Valid()
      ensures r.Success? <==> !old(running) && !old(hasRun)
      ensures old(running) ==> r == Failure(AlreadyRunning)
      ensures !old(running) && old(hasRun) ==> r == Failure(MustReset)
      ensures r.Failure? ==> unchanged(this)
      ensures r.Success? ==> hasRun && !running && queue == []
      ensures r.Success? ==> |steps| >= |old(steps)| && steps[..|old(steps)|] == old(steps)
      // the tracker holds exactly the items visited by this run, each once
      ensures r.Success? ==> tracker == Visited(steps[|old(steps)|..]) && Distinct(steps, |old(steps)|)
      // every successor admitted during the run was visited
      ensures r.Success? ==> Covered(steps, |old(steps)|, tracker, [])
      // only the first visit may be exempt from the stop conditions
      ensures r.Success? ==> forall k :: |old(steps)| <= k < |steps| ==>
        Follows(steps[k], k > |old(steps)| || (startItem.Some? ==> canStopOnStartItem), CurrentRules())
      // with nothing queued beforehand, the start item is visited first, in its start context
      ensures r.Success? && startItem.Some? && old(queue) == [] ==>
        |steps| > |old(steps)| && steps[|old(steps)|].item == startItem.value
        && steps[|old(steps)|].context.(isStopping := false)
           == NextContext(computeNextContextFuns, startItem.value, Initial)
      // each visit saw the context its item was last queued with: computed from
      // the last earlier visit that queued it, else the one it held before the run
      ensures r.Success? ==> forall k :: |old(steps)| <= k < |steps| ==>
        ContextFrom(steps, |old(steps)|, k, steps[k].item, computeNextContextFuns,
                    if startItem.Some?
                    then old(contexts)[startItem.value := NextContext(computeNextContextFuns, startItem.value, Initial)]
                    else old(contexts),
                    steps[k].context.(isStopping := false))
      // with nothing queued beforehand, every later visit is of an item an earlier visit queued
      ensures r.Success? && startItem.Some? && old(queue) == [] ==> forall k :: |old(steps)| < k < |steps| ==>
        LastQueuer(steps, |old(steps)|, k, steps[k].item).Some?
    {
      if running {
        return Failure(AlreadyRunning);
      }
      if hasRun {
        return Failure(MustReset);
      }
      running := true;
      hasRun := true;
      ghost var base := |steps|;
      ghost var first, q0, c0 := DoRun(canStopOnStartItem, universe);
      running := false;
      r := Success(());
      VisitsQueuedWith(computeNextContextFuns, steps, base, q0, c0);
    }

    /** `run(start, canStopOnStartItem)`: `setStart(start)`, then `run`. */
    method RunFrom(start: T, canStopOnStartItem: bool, ghost universe: set<T>) returns (r: Result<(), TraversalError>)
      requires Valid() && Closed(queueNext, universe) && start in universe
      requires forall i :: 0 <= i < |queue| ==> queue[i] in universe
      modifies this`startItem, this`running, this`hasRun, this`contexts, this`queue, this`steps, this`tracker
      ensures startItem == Some(start) && Valid()
      ensures r.Success? <==> !old(running) && !old(hasRun)
      ensures old(running) ==> r == Failure(AlreadyRunning)
      ensures !old(running) && old(hasRun) ==> r == Failure(MustReset)
      ensures r.Success? ==> hasRun && !running && queue == []
      ensures r.Success? ==> |steps| >= |old(steps)| && steps[..|old(steps)|] == old(steps)
      ensures r.Success? ==> tracker == Visited(steps[|old(steps)|..]) && Distinct(steps, |old(steps)|)
      ensures r.Success? ==> Covered(steps, |old(steps)|, tracker, [])
      ensures r.Success? ==> forall k :: |old(steps)| <= k < |steps| ==>
        Follows(steps[k], k > |old(steps)| || canStopOnStartItem, CurrentRules())
      ensures r.Success? && old(queue) == [] ==>
        |steps| > |old(steps)| && steps[|old(steps)|].item == start
        && steps[|old(steps)|].context.(isStopping := false) == NextContext(computeNextContextFuns, start, Initial)
      ensures r.Success? ==> forall k :: |old(steps)| <= k < |steps| ==>
        ContextFrom(steps, |old(steps)|, k, steps[k].item, computeNextContextFuns,
                    old(contexts)[start := NextContext(computeNextContextFuns, start, Initial)],
                    steps[k].context.(isStopping := false))
      ensures r.Success? && old(queue) == [] ==> forall k :: |old(steps)| < k < |steps| ==>
        LastQueuer(steps, |old(steps)|, k, steps[k].item).Some?
    {
      SetStart(start);
      r := Run(canStopOnStartItem, universe);
    }

    /** `reset`: refused while running; otherwise allows another run and empties the queue and tracker. */
    method Reset() returns (r: Result<(), TraversalError>)
      modifies this`hasRun, this`queue, this`tracker
      ensures old(running) ==> r == Failure(CurrentlyRunning) && unchanged(this)
      ensures !old(running) ==> r == Success(()) && !hasRun && queue == [] && tracker == {} && Valid()
    {
      if running {
        return Failure(CurrentlyRunning);
      }
      hasRun := false;
      queue := [];
      tracker := {};
      r := Success(());
    }
  }
}
