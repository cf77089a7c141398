/**
 * A step of a network trace: from a terminal (and its equipment) to a
 * terminal (and its equipment), with the terminal and equipment step counts
 * and the trace's own data.
 */
module NetworkTraceSteps {
  import opened Wrappers
  import opened Topology

  datatype NetworkTraceStep<T> = NetworkTraceStep(
    fromTerminal: Option<TerminalRef>,
    fromEquipment: EquipmentRef,
    toTerminal: Option<TerminalRef>,
    toEquipment: EquipmentRef,
    nTerminalSteps: int,
    nEquipmentSteps: int,
    data: Option<T>)

  /** Both terminals are known and belong to the same equipment. */
  predicate SteppedInternally<T>(s: NetworkTraceStep<T>)
  {
    s.fromTerminal.Some? && s.toTerminal.Some? && s.fromEquipment == s.toEquipment
  }

  /** The error a trace raises for a terminal without conducting equipment. */
  datatype StepError = NoConductingEquipment(terminal: TerminalRef)

  /**
   * `TerminalToTerminalTraceStep(from, to, nTerminalSteps, nEquipmentSteps, data)`:
   * each equipment is its terminal's; the from-terminal is checked first.
   */
  function TerminalToTerminal<T>(net: Network, from: TerminalRef, to: TerminalRef,
                                 nTerminalSteps: int, nEquipmentSteps: int, data: Option<T>)
    : (r: Result<NetworkTraceStep<T>, StepError>)
    ensures r.Success? <==> from in net.equipmentOf && to in net.equipmentOf
    ensures from !in net.equipmentOf ==> r == Failure(NoConductingEquipment(from))
    ensures from in net.equipmentOf && to !in net.equipmentOf ==> r == Failure(NoConductingEquipment(to))
    ensures r.Success? ==>
      && r.value.fromTerminal == Some(from) && r.value.fromEquipment == net.equipmentOf[from]
      && r.value.toTerminal == Some(to) && r.value.toEquipment == net.equipmentOf[to]
      && r.value.nTerminalSteps == nTerminalSteps && r.value.nEquipmentSteps == nEquipmentSteps
      && r.value.data == data
  {
    if from !in net.equipmentOf then Failure(NoConductingEquipment(from))
    else if to !in net.equipmentOf then Failure(NoConductingEquipment(to))
    else Success(NetworkTraceStep(Some(from), net.equipmentOf[from], Some(to), net.equipmentOf[to],
                                  nTerminalSteps, nEquipmentSteps, data))
  }
}
