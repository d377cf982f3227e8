/** ZigbeeNetworkManager (libnymea-zigbee/zigbeenetworkmanager.h): the NXP
    back-end's network. It is a ZigbeeNetwork and adds the controller's version
    string and the step its bring-up sequence has reached. */
module ZigbeeNetworkManager {
  import opened Types
  import ZigbeeNetwork

  /** The bring-up steps, in declaration order. */
  datatype StartingState =
    | StartingStateNone
    | StartingStateErase
    | StartingStateReset
    | StartingStateGetVersion
    | StartingStateSetPanId
    | StartingStateSetChannel
    | StartingStateSetSecurity
    | StartingStateStartNetwork
    | StartingStateReadeNodeDescriptor
    | StartingStateReadSimpleDescriptor
    | StartingStateReadPowerDescriptor

  /** The enum value of a step: its position in the declaration. */
  function Ordinal(s: StartingState): nat {
    match s
    case StartingStateNone => 0
    case StartingStateErase => 1
    case StartingStateReset => 2
    case StartingStateGetVersion => 3
    case StartingStateSetPanId => 4
    case StartingStateSetChannel => 5
    case StartingStateSetSecurity => 6
    case StartingStateStartNetwork => 7
    case StartingStateReadeNodeDescriptor => 8
    case StartingStateReadSimpleDescriptor => 9
    case StartingStateReadPowerDescriptor => 10
  }

  /** The bring-up order: erase, reset, read the version, configure the PAN
      id, channel and security, start the network, then read the
      coordinator's node, simple and power descriptors. */
  const BringUpOrder: seq<StartingState> := [
    StartingStateNone, StartingStateErase, StartingStateReset, StartingStateGetVersion,
    StartingStateSetPanId, StartingStateSetChannel, StartingStateSetSecurity,
    StartingStateStartNetwork, StartingStateReadeNodeDescriptor,
    StartingStateReadSimpleDescriptor, StartingStateReadPowerDescriptor
  ]

  /** Every step appears in the order, at the position of its enum value. */
  lemma BringUpOrderHoldsEveryStep(s: StartingState)
    ensures Ordinal(s) < |BringUpOrder|
    ensures BringUpOrder[Ordinal(s)] == s
  {
  }

  /** Position i of the order holds the step whose enum value is i, so the
      eleven steps are distinct and ordered by their values. */
  lemma BringUpOrderIsByOrdinal(i: nat)
    requires i < |BringUpOrder|
    ensures Ordinal(BringUpOrder[i]) == i
  {
  }

  /** A step comes before another in the order exactly when its enum value
      is smaller. */
  lemma BringUpOrderPrecedes(i: nat, j: nat)
    requires i < |BringUpOrder| && j < |BringUpOrder|
    ensures i < j <==> Ordinal(BringUpOrder[i]) < Ordinal(BringUpOrder[j])
    ensures i != j ==> BringUpOrder[i] != BringUpOrder[j]
  {
  }

  /** The step with the given enum value, if there is one. */
  function StartingStateOf(n: int): (r: Option<StartingState>)
    ensures r.Some? <==> 0 <= n < |BringUpOrder|
    ensures r.Some? ==> Ordinal(r.value) == n
  {
    if 0 <= n < |BringUpOrder| then
      BringUpOrderIsByOrdinal(n);
      Some(BringUpOrder[n])
    else None
  }

  lemma StartingStateRoundTrip(s: StartingState)
    ensures StartingStateOf(Ordinal(s)) == Some(s)
  {
  }

  /** The manager is a network: it holds one and adds its own fields. */
  class NetworkManager {
    const network: ZigbeeNetwork.Network
    var controllerVersion: string
    var startingState: StartingState

    constructor ()
      ensures fresh(network) && network.HasDefaults()
      ensures controllerVersion == ""
      ensures startingState == StartingStateNone
    {
      network := new ZigbeeNetwork.Network();
      controllerVersion := "";
      startingState := StartingStateNone;
    }

    method ControllerVersion() returns (version: string)
      ensures version == controllerVersion
    {
      version := controllerVersion;
    }

    /** The network runs when its state is StateRunning. */
    method NetworkRunning() returns (running: bool)
      ensures running <==> network.state == ZigbeeNetwork.StateRunning
    {
      var state := network.GetState();
      running := state == ZigbeeNetwork.StateRunning;
    }

    /** The one mutator of the current step; nothing else changes. */
    method SetStartingState(s: StartingState)
      modifies this`startingState
      ensures startingState == s
    {
      startingState := s;
    }
  }
}
