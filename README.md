# nymea-zigbee core in Dafny

This project models the core of libnymea-zigbee, a Qt/C++ library that runs a
Zigbee network through a bridge controller (an NXP or a deCONZ USB stick):

- **DeconzInterface** (`reply.dfy`): the deCONZ request/reply correlator
  `ZigbeeInterfaceDeconzReply`. A reply remembers the command and the 8-bit
  sequence number of its request. It owns a single-shot 2000 ms timer. It
  finishes when it is aborted or when the timer fires. The signals it emits
  (`timeout`, `finished`) are kept as an event log. The timer firing is the
  call of `OnTimeout`, not wall-clock time.
- **ZigbeeCluster** (`cluster.dfy`): a cluster with an id and a direction
  fixed at construction, and its attributes in a map keyed by the 16-bit
  attribute id. Also the report-configuration and attribute-report records.
- **Zcl** (`zcl.dfy`): the Zigbee Cluster Library identifiers the cluster
  header declares (Basic, Power Configuration, On/Off, Level Control and
  Color Control clusters). Each is a datatype with its code and a decoder.
- **ZigbeeNetwork** (`network.dfy`): the network façade. It holds the
  life-cycle state and error, the configuration with its defaults and
  setters, and the 8-bit sequence counter. It also holds the node registry:
  an initialized list and an uninitialized list, with lookup by short or
  extended address, add and remove.
- **ZigbeeNetworkManager** (`manager.dfy`): the bring-up step order, the
  current step and its setter, and the controller version.
- **ZigbeeSecurity** (`security.dfy`): the network key and the global Trust
  Center link key, with hexadecimal decoding. The default link key decodes
  to the ASCII text "ZigBeeAlliance09".
- **Nxp** (`nxp.dfy`): the NXP controller's code tables for commands,
  notifications, status, log levels and key types.
- **Types** (`types.dfy`): the Qt integer widths as bounded subsets of `int`,
  and `Option`.

Objects the source updates in place are classes, and each mutator names in
`modifies` only the fields it changes. So "leaves the other fields unchanged"
is part of every setter's contract. Names follow the source's own spelling,
typos included (`StartingStateReadeNodeDescriptor`,
`PowerConfigurationAttributeBattterySource2Settings`,
`SetGlobalTrustCenterlinkKey`). Enum tables are datatypes, each with an
encoder, a decoder defined exactly on the listed codes, and a round-trip
lemma.

Only the deCONZ reply has method bodies in the source. Everything else is a
header. Where the header declares an operation without showing its body, the
model takes the plain reading:

- a getter returns its field;
- a setter stores its argument;
- `addNode` and `addUnitializedNode` append to their own list;
- `getZigbeeNode` returns the first initialized node with the address;
- `hasNode` asks `getZigbeeNode`;
- `removeNode` drops the node from the initialized list;
- `removeZigbeeNode` removes the node `getZigbeeNode` finds;
- `generateSequenceNumber` hands out the counter and then increments it;
- `networkRunning` is the network state being `StateRunning`.

None of these reads invents a transition rule. State and error change only
through `SetState` and `SetError`.

## Model

| member | source | states |
|---|---|---|
| DeconzInterface.Reply.constructor | libnymea-zigbee/deconz/interface/zigbeeinterfacedeconzreply.cpp:61-70 | the reply keeps the given command and sequence number; its timer is single-shot with a 2000 ms interval; the response data is empty and the status code 0; no flag is set and nothing is emitted yet |
| DeconzInterface.Reply.Command | libnymea-zigbee/deconz/interface/zigbeeinterfacedeconzreply.cpp:30-33 | returns the command given at construction and changes nothing |
| DeconzInterface.Reply.SequenceNumber | libnymea-zigbee/deconz/interface/zigbeeinterfacedeconzreply.cpp:35-38 | returns the sequence number given at construction and changes nothing |
| DeconzInterface.Reply.ResponseData | libnymea-zigbee/deconz/interface/zigbeeinterfacedeconzreply.cpp:40-43 | returns the stored response data and changes nothing |
| DeconzInterface.Reply.StatusCode | libnymea-zigbee/deconz/interface/zigbeeinterfacedeconzreply.cpp:45-48 | returns the stored status code and changes nothing |
| DeconzInterface.Reply.Aborted | libnymea-zigbee/deconz/interface/zigbeeinterfacedeconzreply.cpp:50-53 | returns the aborted flag and changes nothing |
| DeconzInterface.Reply.Abort | libnymea-zigbee/deconz/interface/zigbeeinterfacedeconzreply.cpp:55-59 | sets the aborted flag and appends exactly one Finished; the timeout flag is outside its frame; the flags keep matching the log |
| DeconzInterface.Reply.OnTimeout | libnymea-zigbee/deconz/interface/zigbeeinterfacedeconzreply.cpp:72-77 | sets the timeout flag and appends Timeout then Finished, in that order; the aborted flag is outside its frame; the flags keep matching the log |
| DeconzInterface.AbortThenTimeout | libnymea-zigbee/deconz/interface/zigbeeinterfacedeconzreply.cpp:55-77 | an abort followed by a timeout is allowed and leaves both flags set with two Finished events: finishing is not exactly-once |
| DeconzInterface.Count | libnymea-zigbee/deconz/interface/zigbeeinterfacedeconzreply.cpp:58-76 | the number of times a signal was emitted is at most the log length and zero exactly when the signal was never emitted |
| DeconzInterface.CountAppend | libnymea-zigbee/deconz/interface/zigbeeinterfacedeconzreply.cpp:58-76 | emitting more signals adds their counts to the counts so far |
| DeconzInterface.TimeoutsFinishCount | libnymea-zigbee/deconz/interface/zigbeeinterfacedeconzreply.cpp:72-77 | when each timeout is followed by finished, there are at least as many finished as timeout signals |
| ZigbeeCluster.Cluster.constructor | libnymea-zigbee/zigbeecluster.h:193 | the cluster id and direction are the ones given; no attribute is stored yet |
| ZigbeeCluster.Cluster.GetDirection | libnymea-zigbee/zigbeecluster.h:195 | returns the direction fixed at construction |
| ZigbeeCluster.Cluster.GetClusterId | libnymea-zigbee/zigbeecluster.h:197 | returns the cluster id fixed at construction |
| ZigbeeCluster.Cluster.HasAttribute | libnymea-zigbee/zigbeecluster.h:201 | true exactly when an attribute is stored under the id |
| ZigbeeCluster.Cluster.Attribute | libnymea-zigbee/zigbeecluster.h:203 | returns the attribute stored under the id, carrying that id, and None exactly when there is none |
| ZigbeeCluster.Cluster.SetAttribute | libnymea-zigbee/zigbeecluster.h:206 | stores the attribute under its own id, replaces the entry for that id only and keeps every attribute under its own id |
| ZigbeeCluster.Cluster.Attributes | libnymea-zigbee/zigbeecluster.h:200 | lists exactly the stored attributes, one per id: as many as the map holds, with pairwise distinct ids |
| Zcl.DecodeBasicAttribute | libnymea-zigbee/zigbeecluster.h:73-88 | an id names a Basic attribute exactly when it is 0x0000-0x0007, 0x0010-0x0014 or 0x4000, and then names the attribute with that id |
| Zcl.BasicAttributeRoundTrip | libnymea-zigbee/zigbeecluster.h:73-88 | decoding a Basic attribute's id gives the attribute back |
| Zcl.DecodePowerSource | libnymea-zigbee/zigbeecluster.h:92-100 | a byte is a power-source value exactly when it is 0x00-0x06, and then names the value with that code |
| Zcl.PowerSourceRoundTrip | libnymea-zigbee/zigbeecluster.h:92-100 | decoding a power source's code gives it back |
| Zcl.DecodePowerConfigurationAttribute | libnymea-zigbee/zigbeecluster.h:105-114 | an id names a Power Configuration attribute exactly when it is 0x0000-0x0007, and then names the attribute with that id |
| Zcl.PowerConfigurationAttributeRoundTrip | libnymea-zigbee/zigbeecluster.h:105-114 | decoding a Power Configuration attribute's id gives it back |
| Zcl.DecodeOnOffAttribute | libnymea-zigbee/zigbeecluster.h:119-124 | an id names an On/Off attribute exactly when it is 0x0000 or 0x4000-0x4002, and then names the attribute with that id; 0x0000 is OnOff |
| Zcl.OnOffAttributeRoundTrip | libnymea-zigbee/zigbeecluster.h:119-124 | decoding an On/Off attribute's id gives it back |
| Zcl.DecodeOnOffCommand | libnymea-zigbee/zigbeecluster.h:127-131 | Off is exactly 0x00, On exactly 0x01, Toggle exactly 0x02, and no other byte is an On/Off command |
| Zcl.OnOffCommandRoundTrip | libnymea-zigbee/zigbeecluster.h:127-131 | decoding an On/Off command's code gives it back |
| Zcl.DecodeLevelAttribute | libnymea-zigbee/zigbeecluster.h:137-145 | an id names a Level Control attribute exactly when it is 0x0000, 0x0001 or 0x0010-0x0014, and then names the attribute with that id |
| Zcl.LevelAttributeRoundTrip | libnymea-zigbee/zigbeecluster.h:137-145 | decoding a Level Control attribute's id gives it back |
| Zcl.DecodeLevelCommand | libnymea-zigbee/zigbeecluster.h:148-157 | a byte is a Level Control command exactly when it is 0x00-0x07, and then names the command with that code |
| Zcl.LevelCommandRoundTrip | libnymea-zigbee/zigbeecluster.h:148-157 | decoding a Level Control command's code gives it back |
| Zcl.LevelCommandWithOnOffOffset | libnymea-zigbee/zigbeecluster.h:148-157 | each "with On/Off" command's code is its plain command's code plus four |
| Zcl.DecodeColorControlAttribute | libnymea-zigbee/zigbeecluster.h:162-182 | an id names a Color Control attribute exactly when it is 0x0000-0x0008, 0x4000-0x4006 or 0x400a-0x400c, and then names the attribute with that id |
| Zcl.ColorControlAttributeRoundTrip | libnymea-zigbee/zigbeecluster.h:162-182 | decoding a Color Control attribute's id gives it back |
| Zcl.DecodeColorMode | libnymea-zigbee/zigbeecluster.h:185-189 | a byte is a color mode exactly when it is 0x00-0x02, and then names the mode with that code |
| Zcl.ColorModeRoundTrip | libnymea-zigbee/zigbeecluster.h:185-189 | decoding a color mode's code gives it back |
| ZigbeeNetwork.Network.constructor | libnymea-zigbee/zigbeenetwork.h:119-149 | a new network satisfies HasDefaults: it is uninitialized with no error; port /dev/ttyUSB0 at 115200 baud; counter 0; PAN id, extended PAN id and channel 0; all channels; coordinator; joining closed; default security keys; no coordinator node and no nodes |
| ZigbeeNetwork.Network.GetState | libnymea-zigbee/zigbeenetwork.h:66 | returns the state |
| ZigbeeNetwork.Network.GetError | libnymea-zigbee/zigbeenetwork.h:68 | returns the error |
| ZigbeeNetwork.Network.SetState | libnymea-zigbee/zigbeenetwork.h:166 | stores the state and changes no other field |
| ZigbeeNetwork.Network.SetError | libnymea-zigbee/zigbeenetwork.h:167 | stores the error and changes no other field |
| ZigbeeNetwork.Network.SerialPortName | libnymea-zigbee/zigbeenetwork.h:76 | returns the serial port name |
| ZigbeeNetwork.Network.SetSerialPortName | libnymea-zigbee/zigbeenetwork.h:77 | stores the serial port name and changes no other field |
| ZigbeeNetwork.Network.SerialBaudrate | libnymea-zigbee/zigbeenetwork.h:79 | returns the baud rate |
| ZigbeeNetwork.Network.SetSerialBaudrate | libnymea-zigbee/zigbeenetwork.h:80 | stores the baud rate and changes no other field |
| ZigbeeNetwork.Network.PanId | libnymea-zigbee/zigbeenetwork.h:83 | returns the PAN id |
| ZigbeeNetwork.Network.SetPanId | libnymea-zigbee/zigbeenetwork.h:84 | stores the PAN id and changes no other field |
| ZigbeeNetwork.Network.ExtendedPanId | libnymea-zigbee/zigbeenetwork.h:86 | returns the extended PAN id |
| ZigbeeNetwork.Network.SetExtendedPanId | libnymea-zigbee/zigbeenetwork.h:87 | stores the extended PAN id and changes no other field |
| ZigbeeNetwork.Network.Channel | libnymea-zigbee/zigbeenetwork.h:89 | returns the channel |
| ZigbeeNetwork.Network.SetChannel | libnymea-zigbee/zigbeenetwork.h:90 | stores the channel and changes no other field |
| ZigbeeNetwork.Network.ChannelMask | libnymea-zigbee/zigbeenetwork.h:92 | returns the channel mask |
| ZigbeeNetwork.Network.SetChannelMask | libnymea-zigbee/zigbeenetwork.h:93 | stores the channel mask and changes no other field |
| ZigbeeNetwork.Network.SecurityConfiguration | libnymea-zigbee/zigbeenetwork.h:95 | returns a new configuration holding the network's keys, a copy that shares no state with the network |
| ZigbeeNetwork.Network.SetSecurityConfiguration | libnymea-zigbee/zigbeenetwork.h:96 | stores a copy of the configuration's keys and changes no other field |
| ZigbeeNetwork.Network.PermitJoining | libnymea-zigbee/zigbeenetwork.h:98 | returns whether joining is permitted |
| ZigbeeNetwork.Network.SetPermitJoining | libnymea-zigbee/zigbeenetwork.h:99 | stores whether joining is permitted and changes no other field |
| ZigbeeNetwork.Network.GenerateSequenceNumber | libnymea-zigbee/zigbeenetwork.h:101 | hands out the counter's value and advances the 8-bit counter, which changes nothing else |
| ZigbeeNetwork.Network.GenerateSequenceNumbers | libnymea-zigbee/zigbeenetwork.h:101-126 | count calls of generateSequenceNumber in a row hand out exactly SequenceNumbers from the counter's value, and leave the counter count steps further on modulo 256 |
| ZigbeeNetwork.NextSequenceNumber | libnymea-zigbee/zigbeenetwork.h:126 | the 8-bit counter goes up by one and wraps from 255 to 0 |
| ZigbeeNetwork.SequenceNumbers | libnymea-zigbee/zigbeenetwork.h:101 | count consecutive requests get count numbers |
| ZigbeeNetwork.SequenceNumbersAt | libnymea-zigbee/zigbeenetwork.h:125-126 | the i-th of consecutive requests gets the starting counter plus i modulo 256: the counter continues across requests |
| ZigbeeNetwork.SequenceNumbersDistinct | libnymea-zigbee/zigbeenetwork.h:125-126 | up to 256 consecutive requests get pairwise distinct numbers |
| ZigbeeNetwork.SequenceNumbersWrap | libnymea-zigbee/zigbeenetwork.h:126 | the 257th request reuses the first number |
| ZigbeeNetwork.Network.Nodes | libnymea-zigbee/zigbeenetwork.h:104 | returns the initialized nodes |
| ZigbeeNetwork.Network.CoordinatorNode | libnymea-zigbee/zigbeenetwork.h:106 | returns the coordinator node, none by default |
| ZigbeeNetwork.FindByShortAddress | libnymea-zigbee/zigbeenetwork.h:108 | a node is found exactly when one in the list has the short address, and the node found is the first in the list with it |
| ZigbeeNetwork.FindByExtendedAddress | libnymea-zigbee/zigbeenetwork.h:109 | a node is found exactly when one in the list has the extended address, and the node found is the first in the list with it |
| ZigbeeNetwork.Network.GetZigbeeNodeByShortAddress | libnymea-zigbee/zigbeenetwork.h:108 | searches the initialized nodes and returns the first with the short address, or None |
| ZigbeeNetwork.Network.GetZigbeeNodeByAddress | libnymea-zigbee/zigbeenetwork.h:109 | searches the initialized nodes and returns the first with the extended address, or None |
| ZigbeeNetwork.Network.HasNodeByShortAddress | libnymea-zigbee/zigbeenetwork.h:108-111 | true exactly when getZigbeeNode finds a node for the short address, that is when an initialized node has it |
| ZigbeeNetwork.Network.HasNodeByAddress | libnymea-zigbee/zigbeenetwork.h:109-112 | true exactly when getZigbeeNode finds a node for the extended address, that is when an initialized node has it |
| ZigbeeNetwork.Network.AddNode | libnymea-zigbee/zigbeenetwork.h:162 | appends the node to the initialized list; the uninitialized list is outside its frame |
| ZigbeeNetwork.Network.AddUninitializedNode | libnymea-zigbee/zigbeenetwork.h:163 | appends the node to the uninitialized list; the initialized list is outside its frame |
| ZigbeeNetwork.Without | libnymea-zigbee/zigbeenetwork.h:164 | after removing a node, the list holds exactly the other nodes it held, and it is no longer |
| ZigbeeNetwork.WithoutAbsent | libnymea-zigbee/zigbeenetwork.h:164 | removing a node that is not listed changes nothing |
| ZigbeeNetwork.WithoutAppend | libnymea-zigbee/zigbeenetwork.h:164 | removing a node from two joined lists is removing it from each |
| ZigbeeNetwork.Network.RemoveNode | libnymea-zigbee/zigbeenetwork.h:164 | drops every occurrence of the node from the initialized list, keeping the others in order |
| ZigbeeNetwork.Network.RemoveZigbeeNode | libnymea-zigbee/zigbeenetwork.h:116 | removes the node getZigbeeNode finds under the address; an unknown address changes nothing |
| ZigbeeNetwork.RemovedAddressIsGone | libnymea-zigbee/zigbeenetwork.h:112-116 | when no two initialized nodes share an extended address, after removeZigbeeNode(addr) hasNode(addr) is false |
| ZigbeeNetwork.DuplicateAddressSurvivesRemoval | libnymea-zigbee/zigbeenetwork.h:112-116 | with two nodes under one extended address, removeZigbeeNode removes only the first, so hasNode stays true |
| ZigbeeNetworkManager.BringUpOrderHoldsEveryStep | libnymea-zigbee/zigbeenetworkmanager.h:22-34 | every starting step is in the bring-up order, at the position of its enum value |
| ZigbeeNetworkManager.BringUpOrderIsByOrdinal | libnymea-zigbee/zigbeenetworkmanager.h:22-34 | position i of the bring-up order holds the step with enum value i |
| ZigbeeNetworkManager.BringUpOrderPrecedes | libnymea-zigbee/zigbeenetworkmanager.h:22-34 | a step comes earlier in the order exactly when its enum value is smaller, and the eleven steps are distinct |
| ZigbeeNetworkManager.StartingStateOf | libnymea-zigbee/zigbeenetworkmanager.h:22-34 | an integer is a step's enum value exactly when it is 0-10, and then names the step with that value |
| ZigbeeNetworkManager.StartingStateRoundTrip | libnymea-zigbee/zigbeenetworkmanager.h:22-34 | the step named by a step's enum value is that step |
| ZigbeeNetworkManager.NetworkManager.constructor | libnymea-zigbee/zigbeenetworkmanager.h:11-39 | a new manager holds a new network with every default of that network (HasDefaults), an empty controller version and step None |
| ZigbeeNetworkManager.NetworkManager.ControllerVersion | libnymea-zigbee/zigbeenetworkmanager.h:17 | returns the controller version and changes nothing |
| ZigbeeNetworkManager.NetworkManager.NetworkRunning | libnymea-zigbee/zigbeenetworkmanager.h:19 | true exactly when the network is in StateRunning; changes nothing |
| ZigbeeNetworkManager.NetworkManager.SetStartingState | libnymea-zigbee/zigbeenetworkmanager.h:39-40 | stores the step and changes no other field |
| ZigbeeSecurity.SecurityConfiguration.constructor | libnymea-zigbee/zigbeesecurityconfiguration.h:9-22 | a new configuration has an empty network key and the default link key |
| ZigbeeSecurity.SecurityConfiguration.Copy | libnymea-zigbee/zigbeesecurityconfiguration.h:6-24 | a copied configuration holds exactly the given keys |
| ZigbeeSecurity.SecurityConfiguration.NetworkKey | libnymea-zigbee/zigbeesecurityconfiguration.h:11 | returns the network key |
| ZigbeeSecurity.SecurityConfiguration.SetNetworkKey | libnymea-zigbee/zigbeesecurityconfiguration.h:12 | stores the network key; the link key is outside its frame and keeps its value |
| ZigbeeSecurity.SecurityConfiguration.GlobalTrustCenterLinkKey | libnymea-zigbee/zigbeesecurityconfiguration.h:14 | returns the global Trust Center link key |
| ZigbeeSecurity.SecurityConfiguration.SetGlobalTrustCenterlinkKey | libnymea-zigbee/zigbeesecurityconfiguration.h:15 | stores the link key; the network key is outside its frame and keeps its value |
| ZigbeeSecurity.HexDigitValue | libnymea-zigbee/zigbeesecurityconfiguration.h:21-22 | a character has a value exactly when it is a hexadecimal digit, and the value is below 16 |
| ZigbeeSecurity.HexDigit | libnymea-zigbee/zigbeesecurityconfiguration.h:21-22 | the digit written for a value below 16 reads back as that value |
| ZigbeeSecurity.HexDecode | libnymea-zigbee/zigbeesecurityconfiguration.h:21-22 | a decoded key has one byte per two digits |
| ZigbeeSecurity.HexEncode | libnymea-zigbee/zigbeesecurityconfiguration.h:21-22 | encoding writes two digits per byte |
| ZigbeeSecurity.HexDecodeDefined | libnymea-zigbee/zigbeesecurityconfiguration.h:21-22 | a key string decodes exactly when it has an even number of characters, all hexadecimal digits |
| ZigbeeSecurity.HexDecodeAt | libnymea-zigbee/zigbeesecurityconfiguration.h:21-22 | byte k of a decoded key is the value of digits 2k and 2k+1, most significant first |
| ZigbeeSecurity.HexRoundTrip | libnymea-zigbee/zigbeesecurityconfiguration.h:21-22 | encoding bytes as hexadecimal and decoding the text gives the bytes back |
| ZigbeeSecurity.HexDecodeStep | libnymea-zigbee/zigbeesecurityconfiguration.h:21-22 | a key decodes exactly when its first two characters are digits and the rest decodes, and then its first byte comes from those two digits |
| ZigbeeSecurity.HexDecodeAppend | libnymea-zigbee/zigbeesecurityconfiguration.h:21-22 | decoding two joined key strings, the first of even length, joins their bytes |
| ZigbeeSecurity.ZigBeeAlliance09IsAscii | libnymea-zigbee/zigbeesecurityconfiguration.h:21 | the 16 bytes are the ASCII codes of the text "ZigBeeAlliance09" |
| ZigbeeSecurity.DefaultLinkKeyIsZigBeeAlliance09 | libnymea-zigbee/zigbeesecurityconfiguration.h:21-22 | the default global Trust Center link key is 32 hexadecimal digits that decode to the 16 ASCII bytes of "ZigBeeAlliance09" |
| Nxp.DecodeCommand | libnymea-zigbee/backends/nxp/interface/nxp.h:10-23 | a byte is a command exactly when it is 0x00-0x09, and then names the command with that code |
| Nxp.CommandRoundTrip | libnymea-zigbee/backends/nxp/interface/nxp.h:10-23 | decoding a command's code gives the command back |
| Nxp.CommandCodeInjective | libnymea-zigbee/backends/nxp/interface/nxp.h:10-23 | no two commands share a code |
| Nxp.DecodeNotification | libnymea-zigbee/backends/nxp/interface/nxp.h:26-30 | a byte is a notification exactly when it is 0x7D, 0x7E or 0xFE, and then names the notification with that code |
| Nxp.NotificationRoundTrip | libnymea-zigbee/backends/nxp/interface/nxp.h:26-30 | decoding a notification's code gives it back |
| Nxp.NotificationCodesAreNotCommands | libnymea-zigbee/backends/nxp/interface/nxp.h:10-30 | no notification byte is also a command byte |
| Nxp.DecodeStatus | libnymea-zigbee/backends/nxp/interface/nxp.h:33-39 | a byte is a status exactly when it is 0x00-0x04; it is Success exactly when it is 0x00; the status found has that code |
| Nxp.StatusRoundTrip | libnymea-zigbee/backends/nxp/interface/nxp.h:33-39 | decoding a status's code gives it back |
| Nxp.DecodeLogLevel | libnymea-zigbee/backends/nxp/interface/nxp.h:42-51 | a byte is a log level exactly when it is 0x00-0x07, and then names the level with that code |
| Nxp.LogLevelRoundTrip | libnymea-zigbee/backends/nxp/interface/nxp.h:42-51 | decoding a log level's code gives it back |
| Nxp.LogLevelIsRfc5424Severity | libnymea-zigbee/backends/nxp/interface/nxp.h:42-51 | every log level's code is its numerical severity in section 6.2.1 of RFC 5424 |
| Nxp.DecodeKeyType | libnymea-zigbee/backends/nxp/interface/nxp.h:55-58 | a byte is a key type exactly when it is 0x00 (global link key) or 0x01 (unique link key), and then names the type with that code |
| Nxp.KeyTypeRoundTrip | libnymea-zigbee/backends/nxp/interface/nxp.h:55-58 | decoding a key type's code gives it back |

## Left out

- Persistence is not modelled: `QSettings`/`QSqlDatabase`, the database handle, the settings file name and its accessors, `saveNetwork`, `loadNetwork`, `clearSettings`, `saveNode`, `removeNodeFromSettings`. These are I/O in a format the headers do not show.
- Real time is not modelled. The reply's `QTimer` is a settings value, and its expiry is the call of `OnTimeout`. Nothing shown starts or stops the timer.
- Qt signals: the reply's signals are an event log. The network's `*Changed`, `nodeAdded`, `nodeRemoved`, `stateChanged` and `errorOccured` signals, the cluster's `attributeChanged` and the manager's `runningChanged` are not modelled, because the headers do not show whether they fire on every call or only on a change.
- The pure virtual methods are not part of this model: `bridgeController`, `sendRequest`, `setPermitJoiningInternal`, `startNetwork`, `stopNetwork`, `reset` and `factoryResetNetwork`. Their behaviour lives in back-ends that are not shown.
- Other declared operations whose bodies are not shown are also left out: `createNode`, `addNodeInternally`, `removeNodeInternally`, `networkConfigurationAvailable`, `createNetworkReply`, `setReplyResponseError`, `finishNetworkReply`, the network's node slots, and the manager's message, controller and `onCommand*Finished` slots. The model invents no rule for what these do, or for when the starting step advances.
- `QDebug` operators, `Q_ENUM` name strings and `clusterName` are not modelled. They are text formatting.
- `ZigbeeNode`, `ZigbeeAddress`, `ZigbeeChannelMask`, `ZigbeeClusterAttribute` and the `Deconz` enums are opaque values. A node is its short and extended address. An attribute is its id, data type and raw data.
- Nodes are values, not object references. Two distinct node objects with equal addresses collapse into one value, so object identity in `removeNode` and the ownership (`deleteLater`) of removed nodes are not modelled.
- ZigbeeNetwork.Network.RemoveNode: whether the source also drops the node from the uninitialized list is not shown; the model leaves that list unchanged.
- ZigbeeNetwork.RemovedAddressIsGone: "hasNode is false after removeZigbeeNode" holds only when no two initialized nodes share an extended address. Nothing in the headers enforces that. DuplicateAddressSurvivesRemoval shows the case where it fails.
- ZigbeeNetworkManager.NetworkManager.NetworkRunning: the body is not shown; the model reads "running" as the network state being `StateRunning`.
- ZigbeeNetworkManager.NetworkManager: the manager inherits from `ZigbeeNetwork` in the source. The model holds a network instead, because class inheritance is not used in this model. The network's contracts and its defaults (HasDefaults) apply to that field.
- ZigbeeCluster.Cluster.constructor: the field defaults (`ClusterIdUnknown`, `Input`) are not modelled, because the only declared constructor overrides them with its arguments.
- DeconzInterface.Reply.constructor: the reply header is not part of this model. The flags are taken to start false, the response data empty, and the status code as code 0, and the constructor states these starting values. There is no setter for the response data or the status code, because the code that fills them is not shown.
- ZigbeeCluster.Cluster.Attribute: the source returns a `ZigbeeClusterAttribute` by value, so an absent id still yields an attribute (the default-constructed one). The model returns None for an absent id, because the contents of a default attribute are not shown.
- ZigbeeSecurity.HexDecode: the source stores keys as strings and never decodes them. Decoding accepts digits in both cases and stands for the 16-byte key the string denotes.
- The `zigbee-cli` front-end is not part of this model. It is an interactive shell.
