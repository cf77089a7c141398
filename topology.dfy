/**
 * The parts of the network the tracing code reads: terminals and conducting
 * equipment are identified by object identity, modelled as numbers.
 */
module Topology {
  import opened PhaseCodes

  /** Identity of a `Terminal` object. */
  type TerminalRef = nat

  /** Identity of a `ConductingEquipment` object. */
  type EquipmentRef = nat

  /**
   * Each terminal's conducting equipment (a terminal absent from the map has
   * none), each equipment's terminals in their list order, and each
   * terminal's phases (absent: the default ABC).
   */
  datatype Network = Network(
    equipmentOf: map<TerminalRef, EquipmentRef>,
    terminalsOf: map<EquipmentRef, seq<TerminalRef>>,
    phasesOf: map<TerminalRef, PhaseCode>)
  {
    function TerminalsOf(e: EquipmentRef): (ts: seq<TerminalRef>)
      ensures e !in terminalsOf ==> ts == []
    {
      if e in terminalsOf then terminalsOf[e] else []
    }

    function PhasesOf(t: TerminalRef): (c: PhaseCode)
      ensures t !in phasesOf ==> c == ABC
    {
      if t in phasesOf then phasesOf[t] else ABC
    }
  }
}
