/**
 * `Terminal`: the connection point of a piece of conducting equipment. Its
 * equipment may be set once; its connectivity node may be connected and
 * disconnected at will.
 */
module Terminals {
  import opened Wrappers
  import opened PhaseCodes
  import opened Topology
  import opened IdentifiedObjects

  /** A connectivity node: its object identity and its mRID. */
  datatype ConnectivityNode = ConnectivityNode(identity: nat, mRID: string)

  /** The `IllegalStateException` of the equipment setter, naming the equipment already set. */
  datatype TerminalError = EquipmentAlreadySet(current: EquipmentRef)

  /**
   * The `conductingEquipment` setter: accepted while no equipment is set or
   * when the same equipment (by identity) is set again; refused otherwise,
   * including an attempt to set it back to null.
   */
  function SetOnce(current: Option<EquipmentRef>, value: Option<EquipmentRef>): (r: Result<Option<EquipmentRef>, TerminalError>)
    ensures r.Success? <==> current.None? || current == value
    ensures r.Success? ==> r.value == value
    ensures r.Failure? ==> current.Some? && r.error == EquipmentAlreadySet(current.value)
  {
    if current.None? || current == value then Success(value) else Failure(EquipmentAlreadySet(current.value))
  }

  /** The field after a series of setter calls; a refused call leaves it as it was. */
  function SetAll(current: Option<EquipmentRef>, values: seq<Option<EquipmentRef>>): Option<EquipmentRef>
    decreases |values|
  {
    if values == [] then current
    else
      var next := SetOnce(current, values[0]);
      SetAll(if next.Success? then next.value else current, values[1..])
  }

  /** The first non-null equipment offered, if any. */
  function FirstOffered(values: seq<Option<EquipmentRef>>): Option<EquipmentRef>
  {
    if values == [] then None else if values[0].Some? then values[0] else FirstOffered(values[1..])
  }

  /** Once an equipment is set, no series of setter calls changes it. */
  lemma {:induction false} SetEquipmentIsPermanent(e: EquipmentRef, values: seq<Option<EquipmentRef>>)
    ensures SetAll(Some(e), values) == Some(e)
  {
    if values != [] {
      SetEquipmentIsPermanent(e, values[1..]);
    }
  }

  /** Starting from no equipment, the terminal ends up with the first equipment ever offered. */
  lemma {:induction false} FirstEquipmentWins(values: seq<Option<EquipmentRef>>)
    ensures SetAll(None, values) == FirstOffered(values)
  {
    if values != [] {
      if values[0].Some? {
        SetEquipmentIsPermanent(values[0].value, values[1..]);
      } else {
        FirstEquipmentWins(values[1..]);
      }
    }
  }

  class Terminal {
    const mRID: string
    var conductingEquipment: Option<EquipmentRef>
    var phases: PhaseCode
    var sequenceNumber: int
    var connectivityNode: Option<ConnectivityNode>

    /** `Terminal(mRID)`: no equipment, phases ABC, sequence number 0, not connected. */
    constructor (mRID: string)
      ensures mRID != "" ==> this.mRID == mRID
      ensures this.mRID != ""
      ensures conductingEquipment == None
      ensures phases == ABC && sequenceNumber == 0
      ensures connectivityNode == None && !IsConnected()
    {
      SomeRandomUuid();
      var generated :| IsRandomUuid(generated);
      this.mRID := InitialMRID(mRID, generated);
      conductingEquipment := None;
      phases := ABC;
      sequenceNumber := 0;
      connectivityNode := None;
    }

    /** Assigning `conductingEquipment`: fails, changing nothing, once a different equipment is set. */
    method SetConductingEquipment(value: Option<EquipmentRef>) returns (r: Result<(), TerminalError>)
      modifies this`conductingEquipment
      ensures r.Success? <==> SetOnce(old(conductingEquipment), value).Success?
      ensures r.Success? ==> conductingEquipment == value
      ensures r.Failure? ==> conductingEquipment == old(conductingEquipment)
      ensures r.Failure? ==> r.error == SetOnce(old(conductingEquipment), value).error
    {
      if conductingEquipment.None? || conductingEquipment == value {
        conductingEquipment := value;
        r := Success(());
      } else {
        r := Failure(EquipmentAlreadySet(conductingEquipment.value));
      }
    }

    /** `isConnected()`: true exactly when the terminal refers to a connectivity node. */
    predicate IsConnected()
      reads this
      ensures IsConnected() <==> connectivityNode != None
    {
      connectivityNode.Some?
    }

    /** `connectivityNodeId()`: the node's mRID, or null when not connected. */
    function ConnectivityNodeId(): (id: Option<string>)
      reads this
      ensures id.Some? <==> IsConnected()
      ensures IsConnected() ==> id.value == connectivityNode.value.mRID
    {
      match connectivityNode
      case None => None
      case Some(n) => Some(n.mRID)
    }

    /** Assigning `connectivityNode`: null is the same as disconnecting. */
    method SetConnectivityNode(node: Option<ConnectivityNode>)
      modifies this`connectivityNode
      ensures connectivityNode == node
      ensures node.None? ==> !IsConnected() && ConnectivityNodeId() == None
    {
      connectivityNode := node;
    }

    method Connect(node: ConnectivityNode)
      modifies this`connectivityNode
      ensures connectivityNode == Some(node)
      ensures IsConnected() && ConnectivityNodeId() == Some(node.mRID)
    {
      connectivityNode := Some(node);
    }

    method Disconnect()
      modifies this`connectivityNode
      ensures connectivityNode == None
      ensures !IsConnected() && ConnectivityNodeId() == None
    {
      connectivityNode := None;
    }

    method SetPhases(phases: PhaseCode)
      modifies this`phases
      ensures this.phases == phases
      ensures conductingEquipment == old(conductingEquipment) && IsConnected() == old(IsConnected())
    {
      this.phases := phases;
    }

    method SetSequenceNumber(n: int)
      modifies this`sequenceNumber
      ensures sequenceNumber == n
      ensures conductingEquipment == old(conductingEquipment) && IsConnected() == old(IsConnected())
    {
      sequenceNumber := n;
    }
  }
}
