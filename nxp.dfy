/** The code tables of the NXP bridge-controller protocol
    (libnymea-zigbee/backends/nxp/interface/nxp.h): every enum becomes a
    datatype with an encoder to its byte and a decoder that is defined
    exactly on the listed bytes. */
module Nxp {
  import opened Types

  // ---------------------------------------------------------------- Command

  datatype Command =
    | CommandGetVersion
    | CommandGetControllerState
    | CommandSoftReset
    | CommandFactoryReset
    | CommandSetPanId
    | CommandSetChannelMask
    | CommandSetSecurityKey
    | CommandStartNetwork
    | CommandGetNetworkState
    | CommandSetPermitJoinCoordinator

  function CommandCode(c: Command): uint8 {
    match c
    case CommandGetVersion => 0x00
    case CommandGetControllerState => 0x01
    case CommandSoftReset => 0x02
    case CommandFactoryReset => 0x03
    case CommandSetPanId => 0x04
    case CommandSetChannelMask => 0x05
    case CommandSetSecurityKey => 0x06
    case CommandStartNetwork => 0x07
    case CommandGetNetworkState => 0x08
    case CommandSetPermitJoinCoordinator => 0x09
  }

  /** A command byte names a command exactly when it is one of 0x00..0x09,
      and then it names the command whose code it is. */
  function DecodeCommand(b: uint8): (r: Option<Command>)
    ensures r.Some? <==> b <= 0x09
    ensures r.Some? ==> CommandCode(r.value) == b
  {
    match b
    case 0x00 => Some(CommandGetVersion)
    case 0x01 => Some(CommandGetControllerState)
    case 0x02 => Some(CommandSoftReset)
    case 0x03 => Some(CommandFactoryReset)
    case 0x04 => Some(CommandSetPanId)
    case 0x05 => Some(CommandSetChannelMask)
    case 0x06 => Some(CommandSetSecurityKey)
    case 0x07 => Some(CommandStartNetwork)
    case 0x08 => Some(CommandGetNetworkState)
    case 0x09 => Some(CommandSetPermitJoinCoordinator)
    case _ => None
  }

  lemma CommandRoundTrip(c: Command)
    ensures DecodeCommand(CommandCode(c)) == Some(c)
  {
  }

  /** No two commands share a code, so the ten codes are ten distinct bytes. */
  lemma CommandCodeInjective(c: Command, d: Command)
    ensures CommandCode(c) == CommandCode(d) ==> c == d
  {
  }

  // ----------------------------------------------------------- Notification

  datatype Notification =
    | NotificationDeviceStatusChanged
    | NotificationNetworkStarted
    | NotificationDebugMessage

  function NotificationCode(n: Notification): uint8 {
    match n
    case NotificationDeviceStatusChanged => 0x7D
    case NotificationNetworkStarted => 0x7E
    case NotificationDebugMessage => 0xFE
  }

  function DecodeNotification(b: uint8): (r: Option<Notification>)
    ensures r.Some? <==> b == 0x7D || b == 0x7E || b == 0xFE
    ensures r.Some? ==> NotificationCode(r.value) == b
  {
    match b
    case 0x7D => Some(NotificationDeviceStatusChanged)
    case 0x7E => Some(NotificationNetworkStarted)
    case 0xFE => Some(NotificationDebugMessage)
    case _ => None
  }

  lemma NotificationRoundTrip(n: Notification)
    ensures DecodeNotification(NotificationCode(n)) == Some(n)
  {
  }

  /** A notification byte is never also a command byte, so a frame's type
      byte tells the two kinds of message apart. */
  lemma NotificationCodesAreNotCommands(b: uint8)
    ensures DecodeNotification(b).Some? ==> DecodeCommand(b) == None
  {
  }

  // ----------------------------------------------------------------- Status

  datatype Status =
    | StatusSuccess
    | StatusProtocolError
    | StatusUnknownCommand
    | StatusInvalidCrc
    | StatusStackError

  function StatusCode(s: Status): uint8 {
    match s
    case StatusSuccess => 0x00
    case StatusProtocolError => 0x01
    case StatusUnknownCommand => 0x02
    case StatusInvalidCrc => 0x03
    case StatusStackError => 0x04
  }

  /** Status byte 0x00 is success, 0x01..0x04 are the four failures, and any
      other byte is not a status at all. */
  function DecodeStatus(b: uint8): (r: Option<Status>)
    ensures r.Some? <==> b <= 0x04
    ensures r == Some(StatusSuccess) <==> b == 0x00
    ensures r.Some? ==> StatusCode(r.value) == b
  {
    match b
    case 0x00 => Some(StatusSuccess)
    case 0x01 => Some(StatusProtocolError)
    case 0x02 => Some(StatusUnknownCommand)
    case 0x03 => Some(StatusInvalidCrc)
    case 0x04 => Some(StatusStackError)
    case _ => None
  }

  lemma StatusRoundTrip(s: Status)
    ensures DecodeStatus(StatusCode(s)) == Some(s)
  {
  }

  // --------------------------------------------------------------- LogLevel

  datatype LogLevel =
    | LogLevelEmergency
    | LogLevelAlert
    | LogLevelCritical
    | LogLevelError
    | LogLevelWarning
    | LogLevelNotice
    | LogLevelInfo
    | LogLevelDebug

  function LogLevelCode(l: LogLevel): uint8 {
    match l
    case LogLevelEmergency => 0x00
    case LogLevelAlert => 0x01
    case LogLevelCritical => 0x02
    case LogLevelError => 0x03
    case LogLevelWarning => 0x04
    case LogLevelNotice => 0x05
    case LogLevelInfo => 0x06
    case LogLevelDebug => 0x07
  }

  function DecodeLogLevel(b: uint8): (r: Option<LogLevel>)
    ensures r.Some? <==> b <= 0x07
    ensures r.Some? ==> LogLevelCode(r.value) == b
  {
    match b
    case 0x00 => Some(LogLevelEmergency)
    case 0x01 => Some(LogLevelAlert)
    case 0x02 => Some(LogLevelCritical)
    case 0x03 => Some(LogLevelError)
    case 0x04 => Some(LogLevelWarning)
    case 0x05 => Some(LogLevelNotice)
    case 0x06 => Some(LogLevelInfo)
    case 0x07 => Some(LogLevelDebug)
    case _ => None
  }

  lemma LogLevelRoundTrip(l: LogLevel)
    ensures DecodeLogLevel(LogLevelCode(l)) == Some(l)
  {
  }

  /** The eight syslog severities of section 6.2.1 of RFC 5424, most severe
      first; position i holds the severity whose numerical code is i. */
  const Rfc5424Severities: seq<LogLevel> := [
    LogLevelEmergency, LogLevelAlert, LogLevelCritical, LogLevelError,
    LogLevelWarning, LogLevelNotice, LogLevelInfo, LogLevelDebug
  ]

  /** Every NXP log-level byte is the RFC 5424 numerical code of its
      severity, so a smaller byte means a more severe message. */
  lemma LogLevelIsRfc5424Severity(l: LogLevel)
    ensures LogLevelCode(l) < |Rfc5424Severities|
    ensures Rfc5424Severities[LogLevelCode(l)] == l
  {
  }

  // ---------------------------------------------------------------- KeyType

  datatype KeyType =
    | KeyTypeGlobalLinkKey
    | KeyTypeUniqueLinkKey

  function KeyTypeCode(k: KeyType): uint8 {
    match k
    case KeyTypeGlobalLinkKey => 0x00
    case KeyTypeUniqueLinkKey => 0x01
  }

  function DecodeKeyType(b: uint8): (r: Option<KeyType>)
    ensures r.Some? <==> b <= 0x01
    ensures r.Some? ==> KeyTypeCode(r.value) == b
  {
    match b
    case 0x00 => Some(KeyTypeGlobalLinkKey)
    case 0x01 => Some(KeyTypeUniqueLinkKey)
    case _ => None
  }

  lemma KeyTypeRoundTrip(k: KeyType)
    ensures DecodeKeyType(KeyTypeCode(k)) == Some(k)
  {
  }
}
