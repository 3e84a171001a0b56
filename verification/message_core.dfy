/** The base of every protocol message (Buttplug.Core/ButtplugMessage.cs):
    an id, the schema version the message shape was introduced in, and an
    optional link to the shape it superseded. */
module MessageCore {
  import opened Wrappers

  /** C#'s `uint`, `ushort`. */
  type uint32 = x: int | 0 <= x < 0x1_0000_0000
  type uint16 = x: int | 0 <= x < 0x1_0000

  /** Schema version 0 is the original 0.1.0 schema; version 1 introduced
      message versioning, the generic commands and message attributes. */
  const CurrentSchemaVersion: uint32 := 1

  /** The version a message gets when its constructor names none. */
  const DefaultSchemaVersion: uint32 := 0

  /** Id of messages the server raises on its own (ButtplugConsts.SystemMsgId). */
  const SystemMsgId: uint32 := 0

  /** Id a client message gets when its constructor is given none
      (ButtplugConsts.DefaultMsgId). */
  const DefaultMsgId: uint32 := 1

  /** The runtime type of a message: the key of a device's dispatch table
      and the value of a message's previous-type link. */
  datatype MessageType =
    | Ok | Ping | Test | Error | DeviceList | DeviceAdded | DeviceRemoved
    | RequestDeviceList | StartScanning | StopScanning | ScanningFinished
    | RequestLog | Log | RequestServerInfo | ServerInfo
    | FleshlightLaunchRawCmd | LovenseRawCmd | KiirooRawCmd | SingleMotorVibrateCmd

  /** The types marked `IButtplugMessageOutgoingOnly`: responses to a client
      request and events the server raises; a client never sends them. */
  predicate IsOutgoingOnly(t: MessageType)
  {
    t in {Ok, Error, DeviceList, DeviceAdded, DeviceRemoved, ScanningFinished, Log, ServerInfo}
  }

  /** `Type.Name` of each message class. */
  function TypeName(t: MessageType): string
  {
    match t
    case Ok => "Ok"
    case Ping => "Ping"
    case Test => "Test"
    case Error => "Error"
    case DeviceList => "DeviceList"
    case DeviceAdded => "DeviceAdded"
    case DeviceRemoved => "DeviceRemoved"
    case RequestDeviceList => "RequestDeviceList"
    case StartScanning => "StartScanning"
    case StopScanning => "StopScanning"
    case ScanningFinished => "ScanningFinished"
    case RequestLog => "RequestLog"
    case Log => "Log"
    case RequestServerInfo => "RequestServerInfo"
    case ServerInfo => "ServerInfo"
    case FleshlightLaunchRawCmd => "FleshlightLaunchRawCmd"
    case LovenseRawCmd => "LovenseRawCmd"
    case KiirooRawCmd => "KiirooRawCmd"
    case SingleMotorVibrateCmd => "SingleMotorVibrateCmd"
  }

  /** Reads a class name back into its message type. */
  function TypeFromName(s: string): Option<MessageType>
  {
    if s == "Ok" then Some(Ok)
    else if s == "Ping" then Some(Ping)
    else if s == "Test" then Some(Test)
    else if s == "Error" then Some(Error)
    else if s == "DeviceList" then Some(DeviceList)
    else if s == "DeviceAdded" then Some(DeviceAdded)
    else if s == "DeviceRemoved" then Some(DeviceRemoved)
    else if s == "RequestDeviceList" then Some(RequestDeviceList)
    else if s == "StartScanning" then Some(StartScanning)
    else if s == "StopScanning" then Some(StopScanning)
    else if s == "ScanningFinished" then Some(ScanningFinished)
    else if s == "RequestLog" then Some(RequestLog)
    else if s == "Log" then Some(Log)
    else if s == "RequestServerInfo" then Some(RequestServerInfo)
    else if s == "ServerInfo" then Some(ServerInfo)
    else if s == "FleshlightLaunchRawCmd" then Some(FleshlightLaunchRawCmd)
    else if s == "LovenseRawCmd" then Some(LovenseRawCmd)
    else if s == "KiirooRawCmd" then Some(KiirooRawCmd)
    else if s == "SingleMotorVibrateCmd" then Some(SingleMotorVibrateCmd)
    else None
  }

  /** A type's name identifies it: distinct types never share a name. */
  lemma TypeNameRoundTrip(t: MessageType)
    ensures TypeFromName(TypeName(t)) == Some(t)
  {
  }

  lemma TypeNameInjective(a: MessageType, b: MessageType)
    ensures TypeName(a) == TypeName(b) ==> a == b
  {
    TypeNameRoundTrip(a);
    TypeNameRoundTrip(b);
  }

  /** The fields every message carries. `schemaVersion` and `previousType`
      have protected setters: only a message class's own constructor fixes them. */
  datatype Header = Header(id: uint32, schemaVersion: uint32, previousType: Option<MessageType>)

  /** The `ButtplugMessage` constructor; omitted arguments default to
      version 0 and no previous type. */
  function NewHeader(id: uint32, schemaVersion: uint32 := DefaultSchemaVersion,
                     previousType: Option<MessageType> := None): (h: Header)
    ensures h.id == id && h.schemaVersion == schemaVersion && h.previousType == previousType
  {
    Header(id, schemaVersion, previousType)
  }

  /** The public `Id` setter: changes the id and nothing else. */
  function WithId(h: Header, id: uint32): (r: Header)
    ensures r.id == id
    ensures r.schemaVersion == h.schemaVersion && r.previousType == h.previousType
  {
    h.(id := id)
  }

  /** A header built without version arguments is a version-0 message with no
      predecessor, which the current schema still understands. */
  lemma DefaultHeaderIsOriginal(id: uint32)
    ensures NewHeader(id).schemaVersion == 0
    ensures NewHeader(id).previousType.None?
    ensures NewHeader(id).schemaVersion <= CurrentSchemaVersion
  {
  }

  /** The documented id rule: an id is non-zero unless the message is a
      response to another message or an event the server raises. */
  predicate SatisfiesIdRule(h: Header, t: MessageType)
  {
    h.id != 0 || IsOutgoingOnly(t)
  }
}
