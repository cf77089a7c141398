/**
 * The stop condition that limits a network trace to a number of equipment
 * steps: either all equipment steps, or only steps onto equipment of one
 * class, counted in the step context under a key of its own.
 */
module EquipmentStepLimits {
  import opened Wrappers
  import opened StepContexts
  import opened NetworkTraceSteps
  import opened Topology
  import opened Traversals

  /** Conducting-equipment classes of the CIM model, enough to show the subclass relation. */
  datatype EquipmentClass =
    | ConductingEquipment | Switch | ProtectedSwitch | Breaker | Fuse
    | Conductor | AcLineSegment | PowerTransformer | EnergyConnection | EnergyConsumer

  function SimpleName(c: EquipmentClass): string
  {
    match c
    case ConductingEquipment => "ConductingEquipment"
    case Switch => "Switch"
    case ProtectedSwitch => "ProtectedSwitch"
    case Breaker => "Breaker"
    case Fuse => "Fuse"
    case Conductor => "Conductor"
    case AcLineSegment => "AcLineSegment"
    case PowerTransformer => "PowerTransformer"
    case EnergyConnection => "EnergyConnection"
    case EnergyConsumer => "EnergyConsumer"
  }

  /** The direct superclass; `ConductingEquipment` is the root of the hierarchy. */
  function Parent(c: EquipmentClass): Option<EquipmentClass>
  {
    match c
    case ConductingEquipment => None
    case Switch => Some(ConductingEquipment)
    case ProtectedSwitch => Some(Switch)
    case Breaker => Some(ProtectedSwitch)
    case Fuse => Some(Switch)
    case Conductor => Some(ConductingEquipment)
    case AcLineSegment => Some(Conductor)
    case PowerTransformer => Some(ConductingEquipment)
    case EnergyConnection => Some(ConductingEquipment)
    case EnergyConsumer => Some(EnergyConnection)
  }

  function Depth(c: EquipmentClass): nat
  {
    match c
    case ConductingEquipment => 0
    case Switch => 1
    case ProtectedSwitch => 2
    case Breaker => 3
    case Fuse => 2
    case Conductor => 1
    case AcLineSegment => 2
    case PowerTransformer => 1
    case EnergyConnection => 1
    case EnergyConsumer => 2
  }

  lemma ParentIsShallower(c: EquipmentClass)
    ensures Parent(c).Some? ==> Depth(Parent(c).value) < Depth(c)
  {
  }

  /** `c` is `d` or one of its subclasses. */
  predicate IsSubclassOf(c: EquipmentClass, d: EquipmentClass)
    decreases Depth(c)
  {
    c == d || (Parent(c).Some? && Depth(Parent(c).value) < Depth(c) && IsSubclassOf(Parent(c).value, d))
  }

  /** Java's `a.isAssignableFrom(b)`: a `b` can be used where an `a` is expected. */
  predicate IsAssignableFrom(a: EquipmentClass, b: EquipmentClass)
  {
    IsSubclassOf(b, a)
  }

  lemma EveryClassIsConductingEquipment(c: EquipmentClass)
    ensures IsAssignableFrom(ConductingEquipment, c)
  {
  }

  /** The condition: a step limit and an optional equipment class to count. */
  datatype EquipmentStepLimitCondition = EquipmentStepLimitCondition(limit: int, equipmentType: Option<EquipmentClass>)

  const KeyPrefix: string := "sdk:nSteps"

  /** `"sdk:nSteps${equipmentType?.simpleName ?: ""}"`: the prefix, followed by the class name when there is one. */
  function ContextDataKey(c: EquipmentStepLimitCondition): (r: string)
    ensures |r| >= |KeyPrefix| && r[..|KeyPrefix|] == KeyPrefix
    ensures r == KeyPrefix <==> c.equipmentType.None?
  {
    KeyPrefix + (if c.equipmentType.Some? then SimpleName(c.equipmentType.value) else "")
  }

  predicate UsesContextData(c: EquipmentStepLimitCondition)
  {
    c.equipmentType.Some?
  }

  /** Different classes get different keys, and none of them is the key of the untyped condition. */
  lemma ContextDataKeysDistinct(c: EquipmentStepLimitCondition, d: EquipmentStepLimitCondition)
    ensures ContextDataKey(c) == ContextDataKey(d) <==> c.equipmentType == d.equipmentType
    ensures ContextDataKey(c)[..|KeyPrefix|] == KeyPrefix
  {
    if ContextDataKey(c) == ContextDataKey(d) {
      var s := if c.equipmentType.Some? then SimpleName(c.equipmentType.value) else "";
      var t := if d.equipmentType.Some? then SimpleName(d.equipmentType.value) else "";
      assert ContextDataKey(c)[|KeyPrefix|..] == s;
      assert ContextDataKey(d)[|KeyPrefix|..] == t;
    }
  }

  /** `getData<Int>(key)` on a value that is not an `Int` fails its cast. */
  datatype CastError = NotAnInt(key: string)

  /** `context.getEquipmentTypeSteps()`: the stored counter, or 0 when none is stored. */
  function EquipmentTypeSteps(c: EquipmentStepLimitCondition, context: Context): (r: Result<int, CastError>)
    ensures context.GetData(ContextDataKey(c)).Null? ==> r == Success(0)
    ensures context.GetData(ContextDataKey(c)).IntValue? ==> r == Success(context.GetData(ContextDataKey(c)).i)
    ensures context.GetData(ContextDataKey(c)).TextValue? ==> r == Failure(NotAnInt(ContextDataKey(c)))
  {
    match context.GetData(ContextDataKey(c))
    case Null => Success(0)
    case IntValue(i) => Success(i)
    case TextValue(_) => Failure(NotAnInt(ContextDataKey(c)))
  }

  /** `stopCondition`: without a class, the trace's equipment count; with one, the stored counter. */
  function StopCondition<T>(c: EquipmentStepLimitCondition, item: NetworkTraceStep<T>, context: Context)
    : (r: Result<bool, CastError>)
    ensures r.Failure? <==> UsesContextData(c) && context.GetData(ContextDataKey(c)).TextValue?
    ensures !UsesContextData(c) ==> r == Success(item.nEquipmentSteps >= c.limit)
  {
    if c.equipmentType.None? then Success(item.nEquipmentSteps >= c.limit)
    else
      var steps := EquipmentTypeSteps(c, context);
      if steps.Failure? then Failure(steps.error) else Success(steps.value >= c.limit)
  }

  /** The class test as written: the to-equipment's class is assignable from the configured class. */
  predicate CountsAsWritten(toClass: EquipmentClass, equipmentType: EquipmentClass)
  {
    IsAssignableFrom(toClass, equipmentType)
  }

  /** The class test as intended: the to-equipment is an instance of the configured class. */
  predicate CountsIntended(toClass: EquipmentClass, equipmentType: EquipmentClass)
  {
    IsAssignableFrom(equipmentType, toClass)
  }

  /** The next counter: unchanged on an internal step, one more when the class test passes. */
  function NextCount<T>(nSteps: int, next: NetworkTraceStep<T>, counts: bool): int
  {
    if SteppedInternally(next) then nSteps
    else if counts then nSteps + 1
    else nSteps
  }

  /** `computeNextContextData` as written. */
  function ComputeNextContextDataAsWritten<T>(c: EquipmentStepLimitCondition, next: NetworkTraceStep<T>,
                                              context: Context, classOf: EquipmentRef -> EquipmentClass)
    : (r: Result<Value, CastError>)
    ensures !UsesContextData(c) ==> r == Success(Null)
    ensures r.Failure? <==> UsesContextData(c) && context.GetData(ContextDataKey(c)).TextValue?
    ensures r.Success? && UsesContextData(c) ==> r.value.IntValue?
  {
    if c.equipmentType.None? then Success(Null)
    else
      var steps := EquipmentTypeSteps(c, context);
      if steps.Failure? then Failure(steps.error)
      else Success(IntValue(NextCount(steps.value, next,
                                      CountsAsWritten(classOf(next.toEquipment), c.equipmentType.value))))
  }

  /** `computeNextContextData` with the class test the right way round. */
  function ComputeNextContextData<T>(c: EquipmentStepLimitCondition, next: NetworkTraceStep<T>,
                                     context: Context, classOf: EquipmentRef -> EquipmentClass)
    : (r: Result<Value, CastError>)
    ensures !UsesContextData(c) ==> r == Success(Null)
    ensures r.Failure? <==> UsesContextData(c) && context.GetData(ContextDataKey(c)).TextValue?
    ensures r.Success? && UsesContextData(c) ==> r.value.IntValue?
  {
    if c.equipmentType.None? then Success(Null)
    else
      var steps := EquipmentTypeSteps(c, context);
      if steps.Failure? then Failure(steps.error)
      else Success(IntValue(NextCount(steps.value, next,
                                      CountsIntended(classOf(next.toEquipment), c.equipmentType.value))))
  }

  /**
   * The counter never decreases: an internal step keeps it, a step onto
   * equipment of the configured class adds exactly one, any other step keeps it.
   */
  lemma CounterCountsTypedSteps<T>(c: EquipmentStepLimitCondition, next: NetworkTraceStep<T>,
                                   context: Context, classOf: EquipmentRef -> EquipmentClass, n: int)
    requires c.equipmentType.Some? && EquipmentTypeSteps(c, context) == Success(n)
    ensures ComputeNextContextData(c, next, context, classOf).Success?
    ensures var v := ComputeNextContextData(c, next, context, classOf).value;
      && v.IntValue? && v.i >= n
      && (v.i == n + 1 <==> !SteppedInternally(next) && IsSubclassOf(classOf(next.toEquipment), c.equipmentType.value))
      && (v.i != n + 1 ==> v.i == n)
  {
  }

  /**
   * The counting rule as written: the counter also never decreases, but a
   * step between equipment adds one exactly when the configured class is a
   * subclass of the to-equipment's class, the reverse of `CounterCountsTypedSteps`.
   */
  lemma AsWrittenCounts<T>(c: EquipmentStepLimitCondition, next: NetworkTraceStep<T>,
                           context: Context, classOf: EquipmentRef -> EquipmentClass, n: int)
    requires c.equipmentType.Some? && EquipmentTypeSteps(c, context) == Success(n)
    ensures ComputeNextContextDataAsWritten(c, next, context, classOf).Success?
    ensures var v := ComputeNextContextDataAsWritten(c, next, context, classOf).value;
      && v.IntValue? && v.i >= n
      && (v.i == n + 1 <==> !SteppedInternally(next) && IsSubclassOf(c.equipmentType.value, classOf(next.toEquipment)))
      && (v.i != n + 1 ==> v.i == n)
  {
  }

  /**
   * The computer the condition registers under its key, as the traversal
   * calls it. A cast failure, which contexts written by this computer never
   * hold (`CounterAlongPath`), reads as null here.
   */
  function Computer<T>(c: EquipmentStepLimitCondition, classOf: EquipmentRef -> EquipmentClass)
    : ComputeContext<NetworkTraceStep<T>>
  {
    (next: NetworkTraceStep<T>, key: string, context: Context) =>
      var r := ComputeNextContextData(c, next, context, classOf);
      if r.Success? then r.value else Null
  }

  /**
   * The context of the last step of a path from the start: the traversal
   * gives the start item `NextContext(funs, start, Initial)` and every later
   * item the context computed from the item that queued it.
   */
  ghost function ContextAlong<T>(funs: map<string, ComputeContext<NetworkTraceStep<T>>>, path: seq<NetworkTraceStep<T>>)
    : Context
  {
    if path == [] then Initial
    else NextContext(funs, path[|path| - 1], ContextAlong(funs, path[..|path| - 1]))
  }

  /** The steps of a path that go between equipment and onto an instance of the configured class. */
  ghost function TypedSteps<T>(c: EquipmentStepLimitCondition, path: seq<NetworkTraceStep<T>>,
                               classOf: EquipmentRef -> EquipmentClass): nat
    requires c.equipmentType.Some?
  {
    if path == [] then 0
    else
      var last := path[|path| - 1];
      TypedSteps(c, path[..|path| - 1], classOf)
        + (if !SteppedInternally(last) && IsSubclassOf(classOf(last.toEquipment), c.equipmentType.value) then 1 else 0)
  }

  /** Along any path, the stored counter is the number of typed steps of the path. */
  lemma {:induction false} CounterAlongPath<T>(c: EquipmentStepLimitCondition, funs: map<string, ComputeContext<NetworkTraceStep<T>>>,
                                               path: seq<NetworkTraceStep<T>>, classOf: EquipmentRef -> EquipmentClass)
    requires c.equipmentType.Some? && ContextDataKey(c) in funs && funs[ContextDataKey(c)] == Computer(c, classOf)
    ensures EquipmentTypeSteps(c, ContextAlong(funs, path)) == Success(TypedSteps(c, path, classOf))
  {
    if path != [] {
      var prefix, last := path[..|path| - 1], path[|path| - 1];
      var before := ContextAlong(funs, prefix);
      CounterAlongPath(c, funs, prefix, classOf);
      CounterCountsTypedSteps(c, last, before, classOf, TypedSteps(c, prefix, classOf));
      NextContextMeaning(funs, last, before, ContextDataKey(c));
    }
  }

  /**
   * `shouldStop` for a condition on a class: after any path from the start,
   * the trace stops exactly when the path has made at least `limit` steps
   * onto instances of that class.
   */
  lemma StopAfterPath<T>(c: EquipmentStepLimitCondition, funs: map<string, ComputeContext<NetworkTraceStep<T>>>,
                         path: seq<NetworkTraceStep<T>>, item: NetworkTraceStep<T>, classOf: EquipmentRef -> EquipmentClass)
    requires c.equipmentType.Some? && ContextDataKey(c) in funs && funs[ContextDataKey(c)] == Computer(c, classOf)
    ensures StopCondition(c, item, ContextAlong(funs, path)) == Success(TypedSteps(c, path, classOf) >= c.limit)
  {
    CounterAlongPath(c, funs, path, classOf);
  }

  /** As written, a step onto a Breaker is not counted by a condition on Switch, although a Breaker is a Switch. */
  lemma AsWrittenMissesSubclass<T>(next: NetworkTraceStep<T>, context: Context, classOf: EquipmentRef -> EquipmentClass)
    requires !SteppedInternally(next) && classOf(next.toEquipment) == Breaker
    requires context.GetData(ContextDataKey(EquipmentStepLimitCondition(1, Some(Switch)))) == IntValue(0)
    ensures ComputeNextContextDataAsWritten(EquipmentStepLimitCondition(1, Some(Switch)), next, context, classOf)
         == Success(IntValue(0))
    ensures ComputeNextContextData(EquipmentStepLimitCondition(1, Some(Switch)), next, context, classOf)
         == Success(IntValue(1))
  {
    assert !IsSubclassOf(Switch, Breaker);
    assert IsSubclassOf(Breaker, Switch) by {
      assert IsSubclassOf(ProtectedSwitch, Switch);
    }
  }

  /** The two class tests agree when the to-equipment is exactly of the configured class. */
  lemma AsWrittenAgreesOnExactClass<T>(c: EquipmentStepLimitCondition, next: NetworkTraceStep<T>,
                                       context: Context, classOf: EquipmentRef -> EquipmentClass)
    requires c.equipmentType == Some(classOf(next.toEquipment))
    ensures ComputeNextContextDataAsWritten(c, next, context, classOf) == ComputeNextContextData(c, next, context, classOf)
  {
  }
}
