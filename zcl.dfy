/** The Zigbee Cluster Library identifiers that ZigbeeCluster declares
    (libnymea-zigbee/zigbeecluster.h:70-190): attribute ids, command codes
    and enumerated attribute values of the Basic (section 3.2 of the ZCL
    specification), Power Configuration (3.3), On/Off (3.8), Level Control
    (3.10) and Color Control (5.2) clusters. Each enum is a datatype with its
    code and a decoder defined exactly on the listed codes. */
module Zcl {
  import opened Types

  // ---------------------------------------------------------- Basic cluster

  datatype BasicAttribute =
    | BasicAttributeZclVersion
    | BasicAttributeAppVersion
    | BasicAttributeStackVersion
    | BasicAttributeHardwareVersion
    | BasicAttributeManufacturerName
    | BasicAttributeModelIdentifier
    | BasicAttributeDateCode
    | BasicAttributePowerSource
    | BasicAttributeLocationDescription
    | BasicAttributePhysicalEnvironment
    | BasicAttributeDeviceEnabled
    | BasicAttributeAlarmMask
    | BasicAttributeDisableLocalConfig
    | BasicAttributeSwBuildId

  function BasicAttributeId(a: BasicAttribute): uint16 {
    match a
    case BasicAttributeZclVersion => 0x0000
    case BasicAttributeAppVersion => 0x0001
    case BasicAttributeStackVersion => 0x0002
    case BasicAttributeHardwareVersion => 0x0003
    case BasicAttributeManufacturerName => 0x0004
    case BasicAttributeModelIdentifier => 0x0005
    case BasicAttributeDateCode => 0x0006
    case BasicAttributePowerSource => 0x0007
    case BasicAttributeLocationDescription => 0x0010
    case BasicAttributePhysicalEnvironment => 0x0011
    case BasicAttributeDeviceEnabled => 0x0012
    case BasicAttributeAlarmMask => 0x0013
    case BasicAttributeDisableLocalConfig => 0x0014
    case BasicAttributeSwBuildId => 0x4000
  }

  function DecodeBasicAttribute(id: uint16): (r: Option<BasicAttribute>)
    ensures r.Some? <==> id <= 0x0007 || 0x0010 <= id <= 0x0014 || id == 0x4000
    ensures r.Some? ==> BasicAttributeId(r.value) == id
  {
    match id
    case 0x0000 => Some(BasicAttributeZclVersion)
    case 0x0001 => Some(BasicAttributeAppVersion)
    case 0x0002 => Some(BasicAttributeStackVersion)
    case 0x0003 => Some(BasicAttributeHardwareVersion)
    case 0x0004 => Some(BasicAttributeManufacturerName)
    case 0x0005 => Some(BasicAttributeModelIdentifier)
    case 0x0006 => Some(BasicAttributeDateCode)
    case 0x0007 => Some(BasicAttributePowerSource)
    case 0x0010 => Some(BasicAttributeLocationDescription)
    case 0x0011 => Some(BasicAttributePhysicalEnvironment)
    case 0x0012 => Some(BasicAttributeDeviceEnabled)
    case 0x0013 => Some(BasicAttributeAlarmMask)
    case 0x0014 => Some(BasicAttributeDisableLocalConfig)
    case 0x4000 => Some(BasicAttributeSwBuildId)
    case _ => None
  }

  lemma BasicAttributeRoundTrip(a: BasicAttribute)
    ensures DecodeBasicAttribute(BasicAttributeId(a)) == Some(a)
  {
  }

  /** Values of the Basic cluster's PowerSource attribute (0x0007). */
  datatype PowerSource =
    | BasicAttributePowerSourceValueUnknown
    | BasicAttributePowerSourceValueMainsSinglePhase
    | BasicAttributePowerSourceValueMainsThreePhase
    | BasicAttributePowerSourceValueBattery
    | BasicAttributePowerSourceValueDcSource
    | BasicAttributePowerSourceValueEmergencyMainsConstantlyPowered
    | BasicAttributePowerSourceValueEmergencyMainsTransferSwitch

  function PowerSourceCode(p: PowerSource): uint8 {
    match p
    case BasicAttributePowerSourceValueUnknown => 0x00
    case BasicAttributePowerSourceValueMainsSinglePhase => 0x01
    case BasicAttributePowerSourceValueMainsThreePhase => 0x02
    case BasicAttributePowerSourceValueBattery => 0x03
    case BasicAttributePowerSourceValueDcSource => 0x04
    case BasicAttributePowerSourceValueEmergencyMainsConstantlyPowered => 0x05
    case BasicAttributePowerSourceValueEmergencyMainsTransferSwitch => 0x06
  }

  function DecodePowerSource(b: uint8): (r: Option<PowerSource>)
    ensures r.Some? <==> b <= 0x06
    ensures r.Some? ==> PowerSourceCode(r.value) == b
  {
    match b
    case 0x00 => Some(BasicAttributePowerSourceValueUnknown)
    case 0x01 => Some(BasicAttributePowerSourceValueMainsSinglePhase)
    case 0x02 => Some(BasicAttributePowerSourceValueMainsThreePhase)
    case 0x03 => Some(BasicAttributePowerSourceValueBattery)
    case 0x04 => Some(BasicAttributePowerSourceValueDcSource)
    case 0x05 => Some(BasicAttributePowerSourceValueEmergencyMainsConstantlyPowered)
    case 0x06 => Some(BasicAttributePowerSourceValueEmergencyMainsTransferSwitch)
    case _ => None
  }

  lemma PowerSourceRoundTrip(p: PowerSource)
    ensures DecodePowerSource(PowerSourceCode(p)) == Some(p)
  {
  }

  // -------------------------------------------- Power Configuration cluster

  datatype PowerConfigurationAttribute =
    | PowerConfigurationAttributeMainsInformation
    | PowerConfigurationAttributeMainsSettings
    | PowerConfigurationAttributeBatteryInformation
    | PowerConfigurationAttributeBatterySettings
    | PowerConfigurationAttributeBatterySource2Information
    | PowerConfigurationAttributeBattterySource2Settings
    | PowerConfigurationAttributeBatterySource3Information
    | PowerConfigurationAttributeBattterySource3Settings

  function PowerConfigurationAttributeId(a: PowerConfigurationAttribute): uint16 {
    match a
    case PowerConfigurationAttributeMainsInformation => 0x0000
    case PowerConfigurationAttributeMainsSettings => 0x0001
    case PowerConfigurationAttributeBatteryInformation => 0x0002
    case PowerConfigurationAttributeBatterySettings => 0x0003
    case PowerConfigurationAttributeBatterySource2Information => 0x0004
    case PowerConfigurationAttributeBattterySource2Settings => 0x0005
    case PowerConfigurationAttributeBatterySource3Information => 0x0006
    case PowerConfigurationAttributeBattterySource3Settings => 0x0007
  }

  function DecodePowerConfigurationAttribute(id: uint16): (r: Option<PowerConfigurationAttribute>)
    ensures r.Some? <==> id <= 0x0007
    ensures r.Some? ==> PowerConfigurationAttributeId(r.value) == id
  {
    match id
    case 0x0000 => Some(PowerConfigurationAttributeMainsInformation)
    case 0x0001 => Some(PowerConfigurationAttributeMainsSettings)
    case 0x0002 => Some(PowerConfigurationAttributeBatteryInformation)
    case 0x0003 => Some(PowerConfigurationAttributeBatterySettings)
    case 0x0004 => Some(PowerConfigurationAttributeBatterySource2Information)
    case 0x0005 => Some(PowerConfigurationAttributeBattterySource2Settings)
    case 0x0006 => Some(PowerConfigurationAttributeBatterySource3Information)
    case 0x0007 => Some(PowerConfigurationAttributeBattterySource3Settings)
    case _ => None
  }

  lemma PowerConfigurationAttributeRoundTrip(a: PowerConfigurationAttribute)
    ensures DecodePowerConfigurationAttribute(PowerConfigurationAttributeId(a)) == Some(a)
  {
  }

  // --------------------------------------------------------- On/Off cluster

  datatype OnOffAttribute =
    | OnOffClusterAttributeOnOff
    | OnOffClusterAttributeGlobalSceneControl
    | OnOffClusterAttributeOnTime
    | OnOffClusterAttributeOffWaitTime

  function OnOffAttributeId(a: OnOffAttribute): uint16 {
    match a
    case OnOffClusterAttributeOnOff => 0x0000
    case OnOffClusterAttributeGlobalSceneControl => 0x4000
    case OnOffClusterAttributeOnTime => 0x4001
    case OnOffClusterAttributeOffWaitTime => 0x4002
  }

  function DecodeOnOffAttribute(id: uint16): (r: Option<OnOffAttribute>)
    ensures r.Some? <==> id == 0x0000 || 0x4000 <= id <= 0x4002
    ensures r == Some(OnOffClusterAttributeOnOff) <==> id == 0x0000
    ensures r.Some? ==> OnOffAttributeId(r.value) == id
  {
    match id
    case 0x0000 => Some(OnOffClusterAttributeOnOff)
    case 0x4000 => Some(OnOffClusterAttributeGlobalSceneControl)
    case 0x4001 => Some(OnOffClusterAttributeOnTime)
    case 0x4002 => Some(OnOffClusterAttributeOffWaitTime)
    case _ => None
  }

  lemma OnOffAttributeRoundTrip(a: OnOffAttribute)
    ensures DecodeOnOffAttribute(OnOffAttributeId(a)) == Some(a)
  {
  }

  datatype OnOffCommand =
    | OnOffClusterCommandOff
    | OnOffClusterCommandOn
    | OnOffClusterCommandToggle

  function OnOffCommandCode(c: OnOffCommand): uint8 {
    match c
    case OnOffClusterCommandOff => 0x00
    case OnOffClusterCommandOn => 0x01
    case OnOffClusterCommandToggle => 0x02
  }

  /** Off is 0x00, On is 0x01, Toggle is 0x02; no other byte is an On/Off
      command. */
  function DecodeOnOffCommand(b: uint8): (r: Option<OnOffCommand>)
    ensures r == Some(OnOffClusterCommandOff) <==> b == 0x00
    ensures r == Some(OnOffClusterCommandOn) <==> b == 0x01
    ensures r == Some(OnOffClusterCommandToggle) <==> b == 0x02
    ensures r.None? <==> b > 0x02
  {
    match b
    case 0x00 => Some(OnOffClusterCommandOff)
    case 0x01 => Some(OnOffClusterCommandOn)
    case 0x02 => Some(OnOffClusterCommandToggle)
    case _ => None
  }

  lemma OnOffCommandRoundTrip(c: OnOffCommand)
    ensures DecodeOnOffCommand(OnOffCommandCode(c)) == Some(c)
  {
  }

  // -------------------------------------------------- Level Control cluster

  datatype LevelAttribute =
    | LevelClusterAttributeCurrentLevel
    | LevelClusterAttributeRemainingTime
    | LevelClusterAttributeOnOffTransitionTime
    | LevelClusterAttributeOnLevel
    | LevelClusterAttributeOnTransitionTime
    | LevelClusterAttributeOffTransitionTime
    | LevelClusterAttributeDefaultMoveRate

  function LevelAttributeId(a: LevelAttribute): uint16 {
    match a
    case LevelClusterAttributeCurrentLevel => 0x0000
    case LevelClusterAttributeRemainingTime => 0x0001
    case LevelClusterAttributeOnOffTransitionTime => 0x0010
    case LevelClusterAttributeOnLevel => 0x0011
    case LevelClusterAttributeOnTransitionTime => 0x0012
    case LevelClusterAttributeOffTransitionTime => 0x0013
    case LevelClusterAttributeDefaultMoveRate => 0x0014
  }

  function DecodeLevelAttribute(id: uint16): (r: Option<LevelAttribute>)
    ensures r.Some? <==> id <= 0x0001 || 0x0010 <= id <= 0x0014
    ensures r.Some? ==> LevelAttributeId(r.value) == id
  {
    match id
    case 0x0000 => Some(LevelClusterAttributeCurrentLevel)
    case 0x0001 => Some(LevelClusterAttributeRemainingTime)
    case 0x0010 => Some(LevelClusterAttributeOnOffTransitionTime)
    case 0x0011 => Some(LevelClusterAttributeOnLevel)
    case 0x0012 => Some(LevelClusterAttributeOnTransitionTime)
    case 0x0013 => Some(LevelClusterAttributeOffTransitionTime)
    case 0x0014 => Some(LevelClusterAttributeDefaultMoveRate)
    case _ => None
  }

  lemma LevelAttributeRoundTrip(a: LevelAttribute)
    ensures DecodeLevelAttribute(LevelAttributeId(a)) == Some(a)
  {
  }

  datatype LevelCommand =
    | LevelClusterCommandMoveToLevel
    | LevelClusterCommandMove
    | LevelClusterCommandStep
    | LevelClusterCommandStop
    | LevelClusterCommandMoveToLevelWithOnOff
    | LevelClusterCommandMoveWithOnOff
    | LevelClusterCommandStepWithOnOff
    | LevelClusterCommandStopWithOnOff

  function LevelCommandCode(c: LevelCommand): uint8 {
    match c
    case LevelClusterCommandMoveToLevel => 0x00
    case LevelClusterCommandMove => 0x01
    case LevelClusterCommandStep => 0x02
    case LevelClusterCommandStop => 0x03
    case LevelClusterCommandMoveToLevelWithOnOff => 0x04
    case LevelClusterCommandMoveWithOnOff => 0x05
    case LevelClusterCommandStepWithOnOff => 0x06
    case LevelClusterCommandStopWithOnOff => 0x07
  }

  function DecodeLevelCommand(b: uint8): (r: Option<LevelCommand>)
    ensures r.Some? <==> b <= 0x07
    ensures r.Some? ==> LevelCommandCode(r.value) == b
  {
    match b
    case 0x00 => Some(LevelClusterCommandMoveToLevel)
    case 0x01 => Some(LevelClusterCommandMove)
    case 0x02 => Some(LevelClusterCommandStep)
    case 0x03 => Some(LevelClusterCommandStop)
    case 0x04 => Some(LevelClusterCommandMoveToLevelWithOnOff)
    case 0x05 => Some(LevelClusterCommandMoveWithOnOff)
    case 0x06 => Some(LevelClusterCommandStepWithOnOff)
    case 0x07 => Some(LevelClusterCommandStopWithOnOff)
    case _ => None
  }

  lemma LevelCommandRoundTrip(c: LevelCommand)
    ensures DecodeLevelCommand(LevelCommandCode(c)) == Some(c)
  {
  }

  /** The "with On/Off" variant of each level command is its plain code plus
      four: the two halves of the table line up. */
  lemma LevelCommandWithOnOffOffset(b: uint8)
    requires b <= 0x03
    ensures DecodeLevelCommand(b).Some? && DecodeLevelCommand(b + 4).Some?
    ensures LevelCommandCode(DecodeLevelCommand(b + 4).value)
         == LevelCommandCode(DecodeLevelCommand(b).value) + 4
  {
  }

  // -------------------------------------------------- Color Control cluster

  datatype ColorControlAttribute =
    | ColorControlClusterAttributeCurrentHue
    | ColorControlClusterAttributeCurrentSaturation
    | ColorControlClusterAttributeRemainingTime
    | ColorControlClusterAttributeCurrentX
    | ColorControlClusterAttributeCurrentY
    | ColorControlClusterAttributeDriftCompensation
    | ColorControlClusterAttributeCompensationText
    | ColorControlClusterAttributeColorTemperatureMireds
    | ColorControlClusterAttributeColorMode
    | ColorControlClusterAttributeEnhancedCurrentHue
    | ColorControlClusterAttributeEnhancedColorMode
    | ColorControlClusterAttributeColorLoopActive
    | ColorControlClusterAttributeColorLoopDirection
    | ColorControlClusterAttributeColorLoopTime
    | ColorControlClusterAttributeColorLoopStartEnhancedHue
    | ColorControlClusterAttributeColorLoopStoredEnhancedHue
    | ColorControlClusterAttributeColorCapabilities
    | ColorControlClusterAttributeColorTempPhysicalMinMireds
    | ColorControlClusterAttributeColorTempPhysicalMaxMireds

  function ColorControlAttributeId(a: ColorControlAttribute): uint16 {
    match a
    case ColorControlClusterAttributeCurrentHue => 0x0000
    case ColorControlClusterAttributeCurrentSaturation => 0x0001
    case ColorControlClusterAttributeRemainingTime => 0x0002
    case ColorControlClusterAttributeCurrentX => 0x0003
    case ColorControlClusterAttributeCurrentY => 0x0004
    case ColorControlClusterAttributeDriftCompensation => 0x0005
    case ColorControlClusterAttributeCompensationText => 0x0006
    case ColorControlClusterAttributeColorTemperatureMireds => 0x0007
    case ColorControlClusterAttributeColorMode => 0x0008
    case ColorControlClusterAttributeEnhancedCurrentHue => 0x4000
    case ColorControlClusterAttributeEnhancedColorMode => 0x4001
    case ColorControlClusterAttributeColorLoopActive => 0x4002
    case ColorControlClusterAttributeColorLoopDirection => 0x4003
    case ColorControlClusterAttributeColorLoopTime => 0x4004
    case ColorControlClusterAttributeColorLoopStartEnhancedHue => 0x4005
    case ColorControlClusterAttributeColorLoopStoredEnhancedHue => 0x4006
    case ColorControlClusterAttributeColorCapabilities => 0x400a
    case ColorControlClusterAttributeColorTempPhysicalMinMireds => 0x400b
    case ColorControlClusterAttributeColorTempPhysicalMaxMireds => 0x400c
  }

  function DecodeColorControlAttribute(id: uint16): (r: Option<ColorControlAttribute>)
    ensures r.Some? <==> id <= 0x0008 || 0x4000 <= id <= 0x4006 || 0x400a <= id <= 0x400c
    ensures r.Some? ==> ColorControlAttributeId(r.value) == id
  {
    match id
    case 0x0000 => Some(ColorControlClusterAttributeCurrentHue)
    case 0x0001 => Some(ColorControlClusterAttributeCurrentSaturation)
    case 0x0002 => Some(ColorControlClusterAttributeRemainingTime)
    case 0x0003 => Some(ColorControlClusterAttributeCurrentX)
    case 0x0004 => Some(ColorControlClusterAttributeCurrentY)
    case 0x0005 => Some(ColorControlClusterAttributeDriftCompensation)
    case 0x0006 => Some(ColorControlClusterAttributeCompensationText)
    case 0x0007 => Some(ColorControlClusterAttributeColorTemperatureMireds)
    case 0x0008 => Some(ColorControlClusterAttributeColorMode)
    case 0x4000 => Some(ColorControlClusterAttributeEnhancedCurrentHue)
    case 0x4001 => Some(ColorControlClusterAttributeEnhancedColorMode)
    case 0x4002 => Some(ColorControlClusterAttributeColorLoopActive)
    case 0x4003 => Some(ColorControlClusterAttributeColorLoopDirection)
    case 0x4004 => Some(ColorControlClusterAttributeColorLoopTime)
    case 0x4005 => Some(ColorControlClusterAttributeColorLoopStartEnhancedHue)
    case 0x4006 => Some(ColorControlClusterAttributeColorLoopStoredEnhancedHue)
    case 0x400a => Some(ColorControlClusterAttributeColorCapabilities)
    case 0x400b => Some(ColorControlClusterAttributeColorTempPhysicalMinMireds)
    case 0x400c => Some(ColorControlClusterAttributeColorTempPhysicalMaxMireds)
    case _ => None
  }

  lemma ColorControlAttributeRoundTrip(a: ColorControlAttribute)
    ensures DecodeColorControlAttribute(ColorControlAttributeId(a)) == Some(a)
  {
  }

  /** Values of the Color Control cluster's ColorMode attribute (0x0008). */
  datatype ColorMode =
    | ColorControlClusterColorModeHueSaturation
    | ColorControlClusterColorModeXY
    | ColorControlClusterColorModeColorTemperatureMired

  function ColorModeCode(m: ColorMode): uint8 {
    match m
    case ColorControlClusterColorModeHueSaturation => 0x00
    case ColorControlClusterColorModeXY => 0x01
    case ColorControlClusterColorModeColorTemperatureMired => 0x02
  }

  function DecodeColorMode(b: uint8): (r: Option<ColorMode>)
    ensures r.Some? <==> b <= 0x02
    ensures r.Some? ==> ColorModeCode(r.value) == b
  {
    match b
    case 0x00 => Some(ColorControlClusterColorModeHueSaturation)
    case 0x01 => Some(ColorControlClusterColorModeXY)
    case 0x02 => Some(ColorControlClusterColorModeColorTemperatureMired)
    case _ => None
  }

  lemma ColorModeRoundTrip(m: ColorMode)
    ensures DecodeColorMode(ColorModeCode(m)) == Some(m)
  {
  }
}
