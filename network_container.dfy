/**
 * The containers that network metrics are recorded against: a part of the
 * network at one level of the hierarchy, or the network as a whole.
 */
module NetworkContainers {
  import opened Wrappers

  datatype NetworkLevel = GeographicalRegion | SubGeographicalRegion | Substation | Feeder | LvFeeder

  /** `PartialNetworkContainer(level, mRID, name)` or the single `TotalNetworkContainer` object. */
  datatype NetworkContainer =
    | PartialNetworkContainer(level: NetworkLevel, mRID: string, name: string)
    | TotalNetworkContainer

  /** The CIM container classes that have a `toNetworkContainer` mapping. */
  datatype ContainerClass = GeographicalRegionClass | SubGeographicalRegionClass | SubstationClass | FeederClass | LvFeederClass

  /** A CIM container object: its class, mRID and name. */
  datatype Container = Container(containerClass: ContainerClass, mRID: string, name: string)

  /** The level each class is mapped to: each class to the level of the same name. */
  function LevelOf(c: ContainerClass): NetworkLevel
  {
    match c
    case GeographicalRegionClass => GeographicalRegion
    case SubGeographicalRegionClass => SubGeographicalRegion
    case SubstationClass => Substation
    case FeederClass => Feeder
    case LvFeederClass => LvFeeder
  }

  /** The class whose objects are mapped to a level. */
  function ClassAt(level: NetworkLevel): (c: ContainerClass)
    ensures LevelOf(c) == level
  {
    match level
    case GeographicalRegion => GeographicalRegionClass
    case SubGeographicalRegion => SubGeographicalRegionClass
    case Substation => SubstationClass
    case Feeder => FeederClass
    case LvFeeder => LvFeederClass
  }

  /** The five `toNetworkContainer` extension functions. */
  function ToNetworkContainer(c: Container): (r: NetworkContainer)
    ensures r.PartialNetworkContainer?
    ensures r.level == LevelOf(c.containerClass)
    ensures r.mRID == c.mRID && r.name == c.name
  {
    PartialNetworkContainer(LevelOf(c.containerClass), c.mRID, c.name)
  }

  /** Reads back the container a partial network container was made from. */
  function FromNetworkContainer(n: NetworkContainer): (r: Option<Container>)
    ensures r.None? <==> n.TotalNetworkContainer?
  {
    match n
    case TotalNetworkContainer => None
    case PartialNetworkContainer(level, mRID, name) => Some(Container(ClassAt(level), mRID, name))
  }

  /** Distinct classes map to distinct levels. */
  lemma LevelOfIsInjective(a: ContainerClass, b: ContainerClass)
    ensures LevelOf(a) == LevelOf(b) ==> a == b
  {
  }

  /**
   * The mapping loses nothing: the container is recovered from its network
   * container, and every partial network container comes from exactly one
   * container. No container maps to the total network container.
   */
  lemma ToNetworkContainerRoundTrip(c: Container, n: NetworkContainer)
    ensures FromNetworkContainer(ToNetworkContainer(c)) == Some(c)
    ensures ToNetworkContainer(c) != TotalNetworkContainer
    ensures n.PartialNetworkContainer? ==> ToNetworkContainer(FromNetworkContainer(n).value) == n
  {
    LevelOfIsInjective(ClassAt(LevelOf(c.containerClass)), c.containerClass);
  }
}
