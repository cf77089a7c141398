/**
 * `NetworkServiceCompatatorOptions`: five flags choosing what a network
 * comparison looks at, the all/none presets, and a builder that switches
 * flags on one at a time.
 */
module ComparatorOptions {

  datatype Options = Options(
    compareTerminals: bool,
    compareTracedPhases: bool,
    compareFeederEquipment: bool,
    compareEquipmentContainers: bool,
    compareLvSimplification: bool)

  /** The five builder methods, one per flag. */
  datatype Flag = Terminals | Phases | FeederEquipment | EquipmentContainers | LvSimplification

  /** The flag a builder method turns on, read from a set of options. */
  function FlagOf(o: Options, f: Flag): bool
  {
    match f
    case Terminals => o.compareTerminals
    case Phases => o.compareTracedPhases
    case FeederEquipment => o.compareFeederEquipment
    case EquipmentContainers => o.compareEquipmentContainers
    case LvSimplification => o.compareLvSimplification
  }

  /** `all()`. */
  function All(): (o: Options)
    ensures forall f :: FlagOf(o, f)
  {
    Options(true, true, true, true, true)
  }

  /** `none()`. */
  function None(): (o: Options)
    ensures forall f :: !FlagOf(o, f)
  {
    Options(false, false, false, false, false)
  }

  /** The options with one flag turned on. */
  function TurnOn(o: Options, f: Flag): (r: Options)
    ensures FlagOf(r, f)
    ensures forall g :: g != f ==> FlagOf(r, g) == FlagOf(o, g)
  {
    match f
    case Terminals => o.(compareTerminals := true)
    case Phases => o.(compareTracedPhases := true)
    case FeederEquipment => o.(compareFeederEquipment := true)
    case EquipmentContainers => o.(compareEquipmentContainers := true)
    case LvSimplification => o.(compareLvSimplification := true)
  }

  /** Options are determined by their five flags. */
  lemma FlagsDetermineOptions(a: Options, b: Options)
    requires forall f :: FlagOf(a, f) == FlagOf(b, f)
    ensures a == b
  {
    assert FlagOf(a, Terminals) == FlagOf(b, Terminals);
    assert FlagOf(a, Phases) == FlagOf(b, Phases);
    assert FlagOf(a, FeederEquipment) == FlagOf(b, FeederEquipment);
    assert FlagOf(a, EquipmentContainers) == FlagOf(b, EquipmentContainers);
    assert FlagOf(a, LvSimplification) == FlagOf(b, LvSimplification);
  }

  /** Turning a flag on twice is the same as once, and the order of two calls does not matter. */
  lemma TurnOnIdempotentAndCommutative(o: Options, f: Flag, g: Flag)
    ensures TurnOn(TurnOn(o, f), f) == TurnOn(o, f)
    ensures TurnOn(TurnOn(o, f), g) == TurnOn(TurnOn(o, g), f)
  {
    FlagsDetermineOptions(TurnOn(TurnOn(o, f), f), TurnOn(o, f));
    FlagsDetermineOptions(TurnOn(TurnOn(o, f), g), TurnOn(TurnOn(o, g), f));
  }

  /** Calling every builder method on a fresh builder gives `all()`. */
  lemma EveryFlagGivesAll()
    ensures TurnOn(TurnOn(TurnOn(TurnOn(TurnOn(None(), Terminals), Phases), FeederEquipment), EquipmentContainers), LvSimplification) == All()
  {
    FlagsDetermineOptions(TurnOn(TurnOn(TurnOn(TurnOn(TurnOn(None(), Terminals), Phases), FeederEquipment), EquipmentContainers), LvSimplification), All());
  }

  /** `NetworkServiceCompatatorOptions.Builder`: all flags start off. */
  class Builder {
    var compareTerminals: bool
    var comparePhases: bool
    var compareFeederEquipment: bool
    var compareEquipmentContainers: bool
    var compareLvSimplification: bool

    /** `of()` */
    constructor ()
      ensures Build() == None()
    {
      compareTerminals := false;
      comparePhases := false;
      compareFeederEquipment := false;
      compareEquipmentContainers := false;
      compareLvSimplification := false;
    }

    /**
     * `build()`: one option per builder flag, `comparePhases` becoming
     * `compareTracedPhases`; every flag on builds `all()`, none builds `none()`.
     */
    function Build(): (r: Options)
      reads this
      ensures r.compareTracedPhases == comparePhases
      ensures r == All() <==>
        compareTerminals && comparePhases && compareFeederEquipment && compareEquipmentContainers && compareLvSimplification
      ensures r == None() <==>
        !(compareTerminals || comparePhases || compareFeederEquipment || compareEquipmentContainers || compareLvSimplification)
    {
      Options(compareTerminals, comparePhases, compareFeederEquipment, compareEquipmentContainers, compareLvSimplification)
    }

    method CompareTerminals() returns (b: Builder)
      modifies this
      ensures b == this
      ensures Build() == TurnOn(old(Build()), Terminals)
    {
      compareTerminals := true;
      return this;
    }

    method ComparePhases() returns (b: Builder)
      modifies this
      ensures b == this
      ensures Build() == TurnOn(old(Build()), Phases)
    {
      comparePhases := true;
      return this;
    }

    method CompareFeederEquipment() returns (b: Builder)
      modifies this
      ensures b == this
      ensures Build() == TurnOn(old(Build()), FeederEquipment)
    {
      compareFeederEquipment := true;
      return this;
    }

    method CompareEquipmentContainers() returns (b: Builder)
      modifies this
      ensures b == this
      ensures Build() == TurnOn(old(Build()), EquipmentContainers)
    {
      compareEquipmentContainers := true;
      return this;
    }

    method CompareLvSimplification() returns (b: Builder)
      modifies this
      ensures b == this
      ensures Build() == TurnOn(old(Build()), LvSimplification)
    {
      compareLvSimplification := true;
      return this;
    }
  }
}
