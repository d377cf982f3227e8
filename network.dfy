/** ZigbeeNetwork (libnymea-zigbee/zigbeenetwork.h): the state shared by every
    back-end of a Zigbee network — its life-cycle state and last error, the
    network and transport configuration with its defaults, the 8-bit sequence
    counter for outgoing requests, and the registry of known nodes. */
module ZigbeeNetwork {
  import opened Types
  import ZigbeeSecurity

  datatype State = StateUninitialized | StateOffline | StateStarting | StateRunning | StateStopping

  datatype Error = ErrorNoError | ErrorHardwareUnavailable | ErrorZigbeeError

  /** ZigbeeChannelMask is not part of this model: a mask is either the
      "all channels" configuration or an explicit 32-bit channel bit set. */
  datatype ChannelMask = ChannelConfigurationAllChannels | ChannelBits(bits: uint32)

  /** ZigbeeDeviceProfile::NodeType (the device types of a Zigbee network). */
  datatype NodeType = NodeTypeCoordinator | NodeTypeRouter | NodeTypeEndDevice

  /** ZigbeeNode is not part of this model beyond its two addresses: the
      16-bit network (short) address and the 64-bit IEEE (extended) address,
      the latter standing for ZigbeeAddress. */
  datatype Node = Node(shortAddress: uint16, extendedAddress: uint64)

  const DefaultSerialPortName: string := "/dev/ttyUSB0"
  const DefaultSerialBaudrate: int32 := 115200

  // ------------------------------------------------------- Sequence numbers

  /** The counter after one request: the quint8 field wraps from 255 to 0. */
  function NextSequenceNumber(s: uint8): (r: uint8)
    ensures s < 0xFF ==> r == s + 1
    ensures s == 0xFF ==> r == 0
  {
    (s + 1) % 0x100
  }

  /** The numbers handed out by count consecutive requests, starting with the
      counter at start. */
  function SequenceNumbers(start: uint8, count: nat): (r: seq<uint8>)
    ensures |r| == count
    decreases count
  {
    if count == 0 then [] else [start] + SequenceNumbers(NextSequenceNumber(start), count - 1)
  }

  /** The i-th request after the counter stood at start gets start + i
      modulo 256: the counter continues across requests. */
  lemma {:induction false} SequenceNumbersAt(start: uint8, count: nat, i: nat)
    requires i < count
    ensures SequenceNumbers(start, count)[i] == (start + i) % 0x100
    decreases count
  {
    if i > 0 {
      SequenceNumbersAt(NextSequenceNumber(start), count - 1, i - 1);
    }
  }

  /** Up to 256 consecutive requests get pairwise distinct numbers. */
  lemma SequenceNumbersDistinct(start: uint8, count: nat)
    requires count <= 0x100
    ensures forall i, j :: 0 <= i < j < count ==>
      SequenceNumbers(start, count)[i] != SequenceNumbers(start, count)[j]
  {
    forall i, j | 0 <= i < j < count
      ensures SequenceNumbers(start, count)[i] != SequenceNumbers(start, count)[j]
    {
      SequenceNumbersAt(start, count, i);
      SequenceNumbersAt(start, count, j);
    }
  }

  /** The 257th request reuses the number of the first. */
  lemma SequenceNumbersWrap(start: uint8)
    ensures SequenceNumbers(start, 0x101)[0x100] == start
  {
    SequenceNumbersAt(start, 0x101, 0x100);
  }

  // ------------------------------------------------------- Node registry

  /** The first node of the list with the given short address, if any. */
  function FindByShortAddress(nodes: seq<Node>, shortAddress: uint16): (r: Option<Node>)
    ensures r.Some? <==> exists i :: 0 <= i < |nodes| && nodes[i].shortAddress == shortAddress
    ensures r.Some? ==> r.value in nodes && r.value.shortAddress == shortAddress
    ensures r.Some? ==>
      exists i :: 0 <= i < |nodes| && nodes[i] == r.value && (forall j :: 0 <= j < i ==> nodes[j].shortAddress != shortAddress)
  {
    if nodes == [] then None
    else if nodes[0].shortAddress == shortAddress then Some(nodes[0])
    else
      var r := FindByShortAddress(nodes[1..], shortAddress);
      assert forall i :: 1 <= i < |nodes| ==> nodes[i] == nodes[1..][i - 1];
      if r.Some? then
        var i :| 0 <= i < |nodes[1..]| && nodes[1..][i] == r.value &&
          forall j :: 0 <= j < i ==> nodes[1..][j].shortAddress != shortAddress;
        assert nodes[i + 1] == r.value && forall j :: 0 <= j < i + 1 ==> nodes[j].shortAddress != shortAddress;
        r
      else r
  }

  /** The first node of the list with the given extended address, if any. */
  function FindByExtendedAddress(nodes: seq<Node>, address: uint64): (r: Option<Node>)
    ensures r.Some? <==> exists i :: 0 <= i < |nodes| && nodes[i].extendedAddress == address
    ensures r.Some? ==> r.value in nodes && r.value.extendedAddress == address
    ensures r.Some? ==>
      exists i :: 0 <= i < |nodes| && nodes[i] == r.value && (forall j :: 0 <= j < i ==> nodes[j].extendedAddress != address)
  {
    if nodes == [] then None
    else if nodes[0].extendedAddress == address then Some(nodes[0])
    else
      var r := FindByExtendedAddress(nodes[1..], address);
      assert forall i :: 1 <= i < |nodes| ==> nodes[i] == nodes[1..][i - 1];
      if r.Some? then
        var i :| 0 <= i < |nodes[1..]| && nodes[1..][i] == r.value &&
          forall j :: 0 <= j < i ==> nodes[1..][j].extendedAddress != address;
        assert nodes[i + 1] == r.value && forall j :: 0 <= j < i + 1 ==> nodes[j].extendedAddress != address;
        r
      else r
  }

  /** The list with every occurrence of node removed, the rest in order. */
  function Without(nodes: seq<Node>, node: Node): (r: seq<Node>)
    ensures forall n :: n in r <==> n in nodes && n != node
    ensures |r| <= |nodes|
  {
    if nodes == [] then []
    else if nodes[0] == node then Without(nodes[1..], node)
    else [nodes[0]] + Without(nodes[1..], node)
  }

  /** Removing a node that is not listed leaves the list as it was. */
  lemma {:induction false} WithoutAbsent(nodes: seq<Node>, node: Node)
    requires node !in nodes
    ensures Without(nodes, node) == nodes
  {
    if nodes != [] {
      assert nodes[0] != node;
      WithoutAbsent(nodes[1..], node);
      assert [nodes[0]] + nodes[1..] == nodes;
    }
  }

  /** Removing a node from the list appended to another is removing it from
      each part. */
  lemma {:induction false} WithoutAppend(a: seq<Node>, b: seq<Node>, node: Node)
    ensures Without(a + b, node) == Without(a, node) + Without(b, node)
  {
    if a == [] {
      assert a + b == b;
    } else {
      assert (a + b)[0] == a[0] && (a + b)[1..] == a[1..] + b;
      WithoutAppend(a[1..], b, node);
      if a[0] != node {
        var x, ra, rb := a[0], Without(a[1..], node), Without(b, node);
        assert [x] + (ra + rb) == ([x] + ra) + rb;
      }
    }
  }

  /** No two nodes of the list share an extended address. */
  predicate UniqueExtendedAddresses(nodes: seq<Node>) {
    forall i, j :: 0 <= i < j < |nodes| ==> nodes[i].extendedAddress != nodes[j].extendedAddress
  }

  /** When extended addresses are unique, removing the node found under an
      address leaves no node with that address. */
  lemma RemovedAddressIsGone(nodes: seq<Node>, address: uint64)
    requires UniqueExtendedAddresses(nodes)
    requires FindByExtendedAddress(nodes, address).Some?
    ensures FindByExtendedAddress(Without(nodes, FindByExtendedAddress(nodes, address).value), address) == None
  {
  }

  /** Two distinct nodes with one extended address: removing the node found
      under that address leaves the other, so the address is still known. */
  lemma DuplicateAddressSurvivesRemoval()
    ensures var nodes := [Node(1, 7), Node(2, 7)];
      FindByExtendedAddress(Without(nodes, FindByExtendedAddress(nodes, 7).value), 7) == Some(Node(2, 7))
  {
  }

  // ------------------------------------------------------------- The network

  class Network {
    var state: State
    var error: Error

    var serialPortName: string
    var serialBaudrate: int32

    /** The continuous sequence number for network requests. */
    var sequenceNumber: uint8

    var panId: uint16
    var extendedPanId: uint64
    var channel: uint32
    var channelMask: ChannelMask
    var nodeType: NodeType
    var permitJoining: bool
    /** A ZigbeeSecurityConfiguration is held by value; its keys stand for it. */
    var securityKeys: ZigbeeSecurity.SecurityKeys

    var coordinatorNode: Option<Node>
    /** The initialized nodes: the ones lookups find. */
    var nodes: seq<Node>
    /** The nodes still being initialized. */
    var uninitializedNodes: seq<Node>

    /** Every field holds the value a new network starts with. */
    ghost predicate HasDefaults()
      reads this
    {
      && state == StateUninitialized && error == ErrorNoError
      && serialPortName == DefaultSerialPortName && serialBaudrate == DefaultSerialBaudrate
      && sequenceNumber == 0
      && panId == 0 && extendedPanId == 0 && channel == 0
      && channelMask == ChannelConfigurationAllChannels && nodeType == NodeTypeCoordinator
      && permitJoining == false
      && securityKeys == ZigbeeSecurity.DefaultSecurityKeys
      && coordinatorNode == None && nodes == [] && uninitializedNodes == []
    }

    constructor ()
      ensures HasDefaults()
    {
      state := StateUninitialized;
      error := ErrorNoError;
      serialPortName := DefaultSerialPortName;
      serialBaudrate := DefaultSerialBaudrate;
      sequenceNumber := 0;
      panId := 0;
      extendedPanId := 0;
      channel := 0;
      channelMask := ChannelConfigurationAllChannels;
      nodeType := NodeTypeCoordinator;
      permitJoining := false;
      securityKeys := ZigbeeSecurity.DefaultSecurityKeys;
      coordinatorNode := None;
      nodes := [];
      uninitializedNodes := [];
    }

    // ---- State and error: changed only by SetState and SetError.

    method GetState() returns (s: State)
      ensures s == state
    {
      s := state;
    }

    method GetError() returns (e: Error)
      ensures e == error
    {
      e := error;
    }

    method SetState(s: State)
      modifies this`state
      ensures state == s
    {
      state := s;
    }

    method SetError(e: Error)
      modifies this`error
      ensures error == e
    {
      error := e;
    }

    // ---- Configuration: each setter changes its own field and no other.

    method SerialPortName() returns (name: string)
      ensures name == serialPortName
    {
      name := serialPortName;
    }

    method SetSerialPortName(name: string)
      modifies this`serialPortName
      ensures serialPortName == name
    {
      serialPortName := name;
    }

    method SerialBaudrate() returns (baudrate: int32)
      ensures baudrate == serialBaudrate
    {
      baudrate := serialBaudrate;
    }

    method SetSerialBaudrate(baudrate: int32)
      modifies this`serialBaudrate
      ensures serialBaudrate == baudrate
    {
      serialBaudrate := baudrate;
    }

    method PanId() returns (id: uint16)
      ensures id == panId
    {
      id := panId;
    }

    method SetPanId(id: uint16)
      modifies this`panId
      ensures panId == id
    {
      panId := id;
    }

    method ExtendedPanId() returns (id: uint64)
      ensures id == extendedPanId
    {
      id := extendedPanId;
    }

    method SetExtendedPanId(id: uint64)
      modifies this`extendedPanId
      ensures extendedPanId == id
    {
      extendedPanId := id;
    }

    method Channel() returns (c: uint32)
      ensures c == channel
    {
      c := channel;
    }

    method SetChannel(c: uint32)
      modifies this`channel
      ensures channel == c
    {
      channel := c;
    }

    method ChannelMask() returns (mask: ChannelMask)
      ensures mask == channelMask
    {
      mask := channelMask;
    }

    method SetChannelMask(mask: ChannelMask)
      modifies this`channelMask
      ensures channelMask == mask
    {
      channelMask := mask;
    }

    /** Returns a copy: changing its keys afterwards does not reach the
        network, whose fields are outside the copy. */
    method SecurityConfiguration() returns (c: ZigbeeSecurity.SecurityConfiguration)
      ensures fresh(c)
      ensures c.Keys() == securityKeys
    {
      c := new ZigbeeSecurity.SecurityConfiguration.Copy(securityKeys);
    }

    /** Stores a copy of the configuration's keys. */
    method SetSecurityConfiguration(c: ZigbeeSecurity.SecurityConfiguration)
      modifies this`securityKeys
      ensures securityKeys == c.Keys()
    {
      securityKeys := c.Keys();
    }

    method PermitJoining() returns (b: bool)
      ensures b == permitJoining
    {
      b := permitJoining;
    }

    method SetPermitJoining(b: bool)
      modifies this`permitJoining
      ensures permitJoining == b
    {
      permitJoining := b;
    }

    /** Hands out the counter's value and advances it, wrapping at 256. */
    method GenerateSequenceNumber() returns (n: uint8)
      modifies this`sequenceNumber
      ensures n == old(sequenceNumber)
      ensures sequenceNumber == NextSequenceNumber(n)
    {
      n := sequenceNumber;
      sequenceNumber := NextSequenceNumber(sequenceNumber);
    }

    /** count requests in a row: they get the numbers SequenceNumbers
        describes, and the counter ends count steps further on. */
    method GenerateSequenceNumbers(count: nat) returns (ns: seq<uint8>)
      modifies this`sequenceNumber
      ensures ns == SequenceNumbers(old(sequenceNumber), count)
      ensures sequenceNumber == (old(sequenceNumber) + count) % 0x100
    {
      ns := [];
      var i := 0;
      while i < count
        invariant 0 <= i <= count
        invariant sequenceNumber == (old(sequenceNumber) + i) % 0x100
        invariant ns + SequenceNumbers(sequenceNumber, count - i) == SequenceNumbers(old(sequenceNumber), count)
      {
        var rest := SequenceNumbers(NextSequenceNumber(sequenceNumber), count - i - 1);
        assert ns + ([sequenceNumber] + rest) == (ns + [sequenceNumber]) + rest;
        var n := GenerateSequenceNumber();
        ns := ns + [n];
        i := i + 1;
      }
    }

    // ---- Node registry.

    method Nodes() returns (list: seq<Node>)
      ensures list == nodes
    {
      list := nodes;
    }

    method CoordinatorNode() returns (node: Option<Node>)
      ensures node == coordinatorNode
    {
      node := coordinatorNode;
    }

    /** The first initialized node with the given short address. */
    method GetZigbeeNodeByShortAddress(shortAddress: uint16) returns (r: Option<Node>)
      ensures r == FindByShortAddress(nodes, shortAddress)
    {
      var i := 0;
      while i < |nodes|
        invariant 0 <= i <= |nodes|
        invariant FindByShortAddress(nodes, shortAddress) == FindByShortAddress(nodes[i..], shortAddress)
      {
        if nodes[i].shortAddress == shortAddress {
          return Some(nodes[i]);
        }
        assert nodes[i..][1..] == nodes[i + 1..];
        i := i + 1;
      }
      r := None;
    }

    /** The first initialized node with the given extended address. */
    method GetZigbeeNodeByAddress(address: uint64) returns (r: Option<Node>)
      ensures r == FindByExtendedAddress(nodes, address)
    {
      var i := 0;
      while i < |nodes|
        invariant 0 <= i <= |nodes|
        invariant FindByExtendedAddress(nodes, address) == FindByExtendedAddress(nodes[i..], address)
      {
        if nodes[i].extendedAddress == address {
          return Some(nodes[i]);
        }
        assert nodes[i..][1..] == nodes[i + 1..];
        i := i + 1;
      }
      r := None;
    }

    /** hasNode holds exactly when getZigbeeNode finds a node. */
    method HasNodeByShortAddress(shortAddress: uint16) returns (b: bool)
      ensures b <==> FindByShortAddress(nodes, shortAddress).Some?
      ensures b <==> exists i :: 0 <= i < |nodes| && nodes[i].shortAddress == shortAddress
    {
      var r := GetZigbeeNodeByShortAddress(shortAddress);
      b := r.Some?;
    }

    method HasNodeByAddress(address: uint64) returns (b: bool)
      ensures b <==> FindByExtendedAddress(nodes, address).Some?
      ensures b <==> exists i :: 0 <= i < |nodes| && nodes[i].extendedAddress == address
    {
      var r := GetZigbeeNodeByAddress(address);
      b := r.Some?;
    }

    /** Appends the node to the initialized nodes. */
    method AddNode(node: Node)
      modifies this`nodes
      ensures nodes == old(nodes) + [node]
    {
      nodes := nodes + [node];
    }

    /** Appends the node to the nodes being initialized. */
    method AddUninitializedNode(node: Node)
      modifies this`uninitializedNodes
      ensures uninitializedNodes == old(uninitializedNodes) + [node]
    {
      uninitializedNodes := uninitializedNodes + [node];
    }

    /** Drops every occurrence of the node from the initialized nodes, keeping
        the order of the others. */
    method RemoveNode(node: Node)
      modifies this`nodes
      ensures nodes == Without(old(nodes), node)
    {
      var kept: seq<Node> := [];
      var i := 0;
      while i < |nodes|
        invariant nodes == old(nodes)
        invariant 0 <= i <= |nodes|
        invariant kept == Without(nodes[..i], node)
      {
        WithoutAppend(nodes[..i], [nodes[i]], node);
        assert nodes[..i + 1] == nodes[..i] + [nodes[i]];
        if nodes[i] != node {
          kept := kept + [nodes[i]];
        }
        i := i + 1;
      }
      assert nodes[..i] == nodes;
      nodes := kept;
    }

    /** Removes the node found under the extended address; an unknown address
        changes nothing. */
    method RemoveZigbeeNode(address: uint64)
      modifies this`nodes
      ensures FindByExtendedAddress(old(nodes), address).Some? ==>
        nodes == Without(old(nodes), FindByExtendedAddress(old(nodes), address).value)
      ensures FindByExtendedAddress(old(nodes), address) == None ==> nodes == old(nodes)
    {
      var found := GetZigbeeNodeByAddress(address);
      if found.Some? {
        RemoveNode(found.value);
      }
    }
  }
}
