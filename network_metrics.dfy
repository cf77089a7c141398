/**
 * `NetworkMetrics`: a mutable map of named metric values per network
 * container, created on first access and never removed.
 */
module NetworkMetricsTables {
  import opened NetworkContainers

  /** A `Double` metric value, kept as its IEEE 754 bit pattern: the model never does arithmetic on it. */
  datatype Double = Double(bits: bv64)

  /** `NetworkContainerMetrics`: the mutable `MutableMap<String, Double>` handed out by `get`. */
  class ContainerMetrics {
    var values: map<string, Double>

    constructor ()
      ensures values == map[]
    {
      values := map[];
    }

    method Put(key: string, value: Double)
      modifies this`values
      ensures values == old(values)[key := value]
      ensures key in values && values[key] == value
      ensures forall k :: k != key && k in old(values) ==> k in values && values[k] == old(values)[k]
    {
      values := values[key := value];
    }
  }

  class NetworkMetrics {
    /** Its entry set is `entries`. */
    var containerToMetrics: map<NetworkContainer, ContainerMetrics>

    constructor ()
      ensures containerToMetrics == map[]
    {
      containerToMetrics := map[];
    }

    /**
     * `get(container)`: the stored map for a known container, so writes
     * through it persist; for a new container a fresh empty map, which is
     * stored. The other entries are untouched, so the entries only grow.
     */
    method Get(container: NetworkContainer) returns (m: ContainerMetrics)
      modifies this`containerToMetrics
      ensures container in old(containerToMetrics) ==>
        m == old(containerToMetrics)[container] && containerToMetrics == old(containerToMetrics)
      ensures container !in old(containerToMetrics) ==>
        fresh(m) && m.values == map[] && containerToMetrics == old(containerToMetrics)[container := m]
      ensures container in containerToMetrics
      ensures forall k :: k in old(containerToMetrics) ==> k in containerToMetrics && containerToMetrics[k] == old(containerToMetrics)[k]
    {
      if container in containerToMetrics {
        m := containerToMetrics[container];
      } else {
        m := new ContainerMetrics();
        containerToMetrics := containerToMetrics[container := m];
      }
    }

    /** A value written through the map `get` returned is seen by the next `get` of the same container. */
    method GetPutGet(container: NetworkContainer, key: string, value: Double) returns (again: ContainerMetrics)
      modifies this`containerToMetrics, if container in containerToMetrics then {containerToMetrics[container]} else {}
      ensures key in again.values && again.values[key] == value
    {
      var m := Get(container);
      m.Put(key, value);
      again := Get(container);
    }
  }
}
