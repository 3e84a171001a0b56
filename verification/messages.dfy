/** The protocol's message vocabulary (Buttplug/Messages/Messages.cs): one
    body per message class, the validating property setters, and the
    constructors that run them. */
module Messages {
  import opened Wrappers
  import Core = MessageCore
  import NLog
  import D = Doubles

  datatype DeviceMessageInfo = DeviceMessageInfo(deviceIndex: Core.uint32, deviceName: string)

  /** The error classes a device error can carry. */
  datatype ErrorClass = ErrorUnknown | ErrorInit | ErrorPing | ErrorMsg | ErrorDevice

  /** The fields of each message class beyond the base header. */
  datatype Body =
    | Ok
    | Ping
    | Test(testString: string)
    | Error(errorMessage: string, errorClass: Option<ErrorClass>)
    | DeviceList(devices: seq<DeviceMessageInfo>)
    | DeviceAdded(deviceIndex: Core.uint32, deviceName: string)
    | DeviceRemoved(deviceIndex: Core.uint32)
    | RequestDeviceList
    | StartScanning
    | StopScanning
    | ScanningFinished
    | RequestLog(logLevel: Option<string>, logLevelObj: Option<NLog.LogLevel>)
    | Log(levelName: string, logMessage: string)
    | RequestServerInfo
    | ServerInfo(majorVersion: int, minorVersion: int, buildVersion: int)
    | FleshlightLaunchRawCmd(deviceIndex: Core.uint32, speed: Core.uint16, position: Core.uint16)
    | LovenseRawCmd(deviceIndex: Core.uint32)
    | KiirooRawCmd(deviceIndex: Core.uint32, position: Core.uint16)
    | SingleMotorVibrateCmd(deviceIndex: Core.uint32, vibrateSpeed: real)

  datatype Message = Message(header: Core.Header, body: Body)

  /** `GetType()` of a message. */
  function TypeOf(m: Message): Core.MessageType
  {
    match m.body
    case Ok => Core.Ok
    case Ping => Core.Ping
    case Test(_) => Core.Test
    case Error(_, _) => Core.Error
    case DeviceList(_) => Core.DeviceList
    case DeviceAdded(_, _) => Core.DeviceAdded
    case DeviceRemoved(_) => Core.DeviceRemoved
    case RequestDeviceList => Core.RequestDeviceList
    case StartScanning => Core.StartScanning
    case StopScanning => Core.StopScanning
    case ScanningFinished => Core.ScanningFinished
    case RequestLog(_, _) => Core.RequestLog
    case Log(_, _) => Core.Log
    case RequestServerInfo => Core.RequestServerInfo
    case ServerInfo(_, _, _) => Core.ServerInfo
    case FleshlightLaunchRawCmd(_, _, _) => Core.FleshlightLaunchRawCmd
    case LovenseRawCmd(_) => Core.LovenseRawCmd
    case KiirooRawCmd(_, _) => Core.KiirooRawCmd
    case SingleMotorVibrateCmd(_, _) => Core.SingleMotorVibrateCmd
  }

  /** The classes derived from `ButtplugDeviceMessage`, which address one device. */
  predicate IsDeviceMessage(b: Body)
  {
    b.DeviceAdded? || b.FleshlightLaunchRawCmd? || b.LovenseRawCmd? || b.KiirooRawCmd?
    || b.SingleMotorVibrateCmd?
  }

  type DeviceMessage = m: Message | IsDeviceMessage(m.body)
    witness Message(Core.Header(Core.DefaultMsgId, Core.DefaultSchemaVersion, None), LovenseRawCmd(0))

  /** The `ArgumentException`s the setters throw. */
  datatype ValidationError =
    | ErrorTestString
    | InvalidLogLevel(given: Option<string>)
    | FleshlightSpeedTooHigh
    | FleshlightPositionTooHigh
    | KiirooPositionTooHigh
    | VibrateSpeedBelowZero
    | VibrateSpeedAboveOne

  /** The exception's message; a null level interpolates as the empty string.
      Each text is split after its first word so that proofs can read it. */
  function Text(e: ValidationError): string
  {
    match e
    case ErrorTestString => "Got" + " an Error Message"
    case InvalidLogLevel(given) => "Log" + " level " + given.GetOr("") + " is not valid."
    case FleshlightSpeedTooHigh => "FleshlightLaunchRawMessage" + " cannot have a speed higher than 99!"
    case FleshlightPositionTooHigh => "FleshlightLaunchRawMessage" + " cannot have a position higher than 99!"
    case KiirooPositionTooHigh => "KiirooRawCmd" + " Position cannot be greater than 4"
    case VibrateSpeedBelowZero => "SingleMotorVibrateMessage" + " Speed cannot be less than 0!"
    case VibrateSpeedAboveOne => "SingleMotorVibrateMessage" + " Speed cannot be greater than 1!"
  }

  /** Each exception text names its cause: two errors share a text only when
      they are the same error, or two level errors for a null and an empty
      level, which interpolate alike. */
  lemma TextsIdentifyErrors(a: ValidationError, b: ValidationError)
    requires Text(a) == Text(b)
    ensures a == b || (a.InvalidLogLevel? && b.InvalidLogLevel? && a.given.GetOr("") == b.given.GetOr(""))
  {
    if a.InvalidLogLevel? && b.InvalidLogLevel? {
      var x, y := a.given.GetOr(""), b.given.GetOr("");
      assert |x| == |y|;
      assert x == Text(a)[10..10 + |x|];
      assert y == Text(b)[10..10 + |y|];
    } else {
      assert Text(a)[0] == Text(b)[0] && |Text(a)| == |Text(b)|;
    }
  }

  /** The object after a property assignment: either the value was stored, or
      the setter threw and the object is left as it was found. */
  datatype Assignment<T> = Assigned(after: T) | Threw(after: T, error: ValidationError)

  /** Constructing an object runs its setters; a throw aborts construction. */
  function Construct(a: Assignment<Message>): (r: Result<Message, ValidationError>)
    ensures r.Success? <==> a.Assigned?
    ensures r.Success? ==> r.value == a.after
    ensures r.Failure? ==> r.error == a.error
  {
    match a
    case Assigned(m) => Success(m)
    case Threw(_, e) => Failure(e)
  }

  /** The level names `RequestLog` accepts, each with its NLog level. */
  const Levels: map<string, NLog.LogLevel> := map[
    "Off" := NLog.Off, "Fatal" := NLog.Fatal, "Error" := NLog.Error, "Warn" := NLog.Warn,
    "Info" := NLog.Info, "Debug" := NLog.Debug, "Trace" := NLog.Trace]

  /** The field constraints the property setters guard. A `RequestLog` made
      by the parameterless constructor has no level name at all. */
  predicate FieldsInRange(m: Message)
  {
    match m.body
    case Test(s) => s != "Error"
    case RequestLog(l, _) => l.Some? ==> l.value in Levels
    case FleshlightLaunchRawCmd(_, speed, position) => speed <= 99 && position <= 99
    case KiirooRawCmd(_, position) => position <= 4
    case SingleMotorVibrateCmd(_, speed) => 0.0 <= speed <= 1.0
    case _ => true
  }

  /** A `RequestLog`'s level object is its level name's table entry, or null
      when no name is set. Only the `LogLevel` setter keeps the two together:
      `LogLevelObj` is a public field that can be assigned on its own. */
  predicate LevelObjectMatches(m: Message)
  {
    match m.body
    case RequestLog(l, o) =>
      if l.Some? then l.value in Levels && o == Some(Levels[l.value]) else o.None?
    case _ => true
  }

  /** A message as its constructors leave it. */
  predicate Valid(m: Message)
  {
    FieldsInRange(m) && LevelObjectMatches(m)
  }

  // ---------------------------------------------------------------------
  // Property setters

  /** `Test.TestString`: any string except "Error". */
  function SetTestString(m: Message, v: string): (r: Assignment<Message>)
    requires m.body.Test?
    ensures r.Assigned? <==> v != "Error"
    ensures r.Assigned? ==> r.after.header == m.header && r.after.body == Test(v)
    ensures r.Threw? ==> r.after == m && r.error == ErrorTestString
  {
    if v == "Error" then Threw(m, ErrorTestString)
    else Assigned(m.(body := Test(v)))
  }

  /** `RequestLog.LogLevel`: a non-null name from the level table; the level
      object stored beside it is that name's table entry. */
  function SetLogLevel(m: Message, v: Option<string>): (r: Assignment<Message>)
    requires m.body.RequestLog?
    ensures r.Assigned? <==> v in {Some("Off"), Some("Fatal"), Some("Error"), Some("Warn"),
                                   Some("Info"), Some("Debug"), Some("Trace")}
    ensures r.Assigned? ==> r.after.header == m.header
                            && r.after.body.RequestLog? && r.after.body.logLevel == v
                            && r.after.body.logLevelObj == Some(Levels[v.value])
    ensures r.Threw? ==> r.after == m && r.error == InvalidLogLevel(v)
  {
    if v.None? || v.value !in Levels then Threw(m, InvalidLogLevel(v))
    else Assigned(m.(body := RequestLog(v, Some(Levels[v.value]))))
  }

  /** `FleshlightLaunchRawCmd.Speed`: at most 99. */
  function SetFleshlightSpeed(m: Message, v: Core.uint16): (r: Assignment<Message>)
    requires m.body.FleshlightLaunchRawCmd?
    ensures r.Assigned? <==> v <= 99
    ensures r.Assigned? ==> r.after.header == m.header && r.after.body == FleshlightLaunchRawCmd(m.body.deviceIndex, v, m.body.position)
    ensures r.Threw? ==> r.after == m && r.error == FleshlightSpeedTooHigh
  {
    if v > 99 then Threw(m, FleshlightSpeedTooHigh)
    else Assigned(m.(body := FleshlightLaunchRawCmd(m.body.deviceIndex, v, m.body.position)))
  }

  /** `FleshlightLaunchRawCmd.Position`: at most 99. */
  function SetFleshlightPosition(m: Message, v: Core.uint16): (r: Assignment<Message>)
    requires m.body.FleshlightLaunchRawCmd?
    ensures r.Assigned? <==> v <= 99
    ensures r.Assigned? ==> r.after.header == m.header && r.after.body == FleshlightLaunchRawCmd(m.body.deviceIndex, m.body.speed, v)
    ensures r.Threw? ==> r.after == m && r.error == FleshlightPositionTooHigh
  {
    if v > 99 then Threw(m, FleshlightPositionTooHigh)
    else Assigned(m.(body := FleshlightLaunchRawCmd(m.body.deviceIndex, m.body.speed, v)))
  }

  /** `KiirooRawCmd.Position`: at most 4. */
  function SetKiirooPosition(m: Message, v: Core.uint16): (r: Assignment<Message>)
    requires m.body.KiirooRawCmd?
    ensures r.Assigned? <==> v <= 4
    ensures r.Assigned? ==> r.after.header == m.header && r.after.body == KiirooRawCmd(m.body.deviceIndex, v)
    ensures r.Threw? ==> r.after == m && r.error == KiirooPositionTooHigh
  {
    if v > 4 then Threw(m, KiirooPositionTooHigh)
    else Assigned(m.(body := KiirooRawCmd(m.body.deviceIndex, v)))
  }

  /** The interval [0, 1] the vibrate speed must lie in. */
  predicate InUnitInterval(v: D.Double)
  {
    v.Finite? && 0.0 <= v.value <= 1.0
  }

  /** The vibrate-speed guard as written: `value < 0` throws, then
      `value > 1` throws. Both comparisons are false for NaN. */
  predicate VibrateSpeedPassesAsWritten(v: D.Double)
  {
    !D.LessThan(v, 0.0) && !D.GreaterThan(v, 1.0)
  }

  /** NaN passes the guard as written although it is no speed in [0, 1]. */
  lemma NaNPassesVibrateGuardAsWritten()
    ensures VibrateSpeedPassesAsWritten(D.NaN)
    ensures !InUnitInterval(D.NaN)
  {
  }

  /** `SingleMotorVibrateCmd.Speed` with the guard negated (`!(value >= 0)`,
      `!(value <= 1)`) so that NaN is refused with the first error. */
  function SetVibrateSpeed(m: Message, v: D.Double): (r: Assignment<Message>)
    requires m.body.SingleMotorVibrateCmd?
    ensures r.Assigned? <==> InUnitInterval(v)
    ensures r.Assigned? ==> r.after.header == m.header
                            && r.after.body == SingleMotorVibrateCmd(m.body.deviceIndex, v.value)
    ensures r.Threw? ==> r.after == m
    ensures D.LessThan(v, 0.0) || v.NaN? ==> r == Threw(m, VibrateSpeedBelowZero)
    ensures D.GreaterThan(v, 1.0) ==> r == Threw(m, VibrateSpeedAboveOne)
  {
    if !D.AtLeast(v, 0.0) then Threw(m, VibrateSpeedBelowZero)
    else if !D.AtMost(v, 1.0) then Threw(m, VibrateSpeedAboveOne)
    else Assigned(m.(body := SingleMotorVibrateCmd(m.body.deviceIndex, v.value)))
  }

  /** On every double except NaN the corrected guard accepts exactly what the
      guard as written accepts. */
  lemma VibrateGuardAgreesExceptNaN(m: Message, v: D.Double)
    requires m.body.SingleMotorVibrateCmd?
    ensures !v.NaN? ==> (SetVibrateSpeed(m, v).Assigned? <==> VibrateSpeedPassesAsWritten(v))
  {
  }

  /** Every public property assignment of the vocabulary. */
  datatype Mutation =
    | SetId(id: Core.uint32)
    | AssignTestString(s: string)
    | AssignLogLevel(level: Option<string>)
    | AssignLogLevelObj(levelObj: Option<NLog.LogLevel>)
    | AssignDevices(devices: seq<DeviceMessageInfo>)
    | AssignFleshlightSpeed(speed: Core.uint16)
    | AssignFleshlightPosition(position: Core.uint16)
    | AssignKiirooPosition(kiirooPosition: Core.uint16)
    | AssignVibrateSpeed(vibrateSpeed: D.Double)

  /** Whether the message's class has the property being assigned. */
  predicate Applicable(m: Message, op: Mutation)
  {
    match op
    case SetId(_) => true
    case AssignTestString(_) => m.body.Test?
    case AssignLogLevel(_) => m.body.RequestLog?
    case AssignLogLevelObj(_) => m.body.RequestLog?
    case AssignDevices(_) => m.body.DeviceList?
    case AssignFleshlightSpeed(_) => m.body.FleshlightLaunchRawCmd?
    case AssignFleshlightPosition(_) => m.body.FleshlightLaunchRawCmd?
    case AssignKiirooPosition(_) => m.body.KiirooRawCmd?
    case AssignVibrateSpeed(_) => m.body.SingleMotorVibrateCmd?
  }

  function Mutate(m: Message, op: Mutation): Assignment<Message>
    requires Applicable(m, op)
  {
    match op
    case SetId(id) => Assigned(m.(header := Core.WithId(m.header, id)))
    case AssignTestString(s) => SetTestString(m, s)
    case AssignLogLevel(l) => SetLogLevel(m, l)
    case AssignLogLevelObj(o) => Assigned(m.(body := RequestLog(m.body.logLevel, o)))
    case AssignDevices(ds) => Assigned(m.(body := DeviceList(ds)))
    case AssignFleshlightSpeed(v) => SetFleshlightSpeed(m, v)
    case AssignFleshlightPosition(v) => SetFleshlightPosition(m, v)
    case AssignKiirooPosition(v) => SetKiirooPosition(m, v)
    case AssignVibrateSpeed(v) => SetVibrateSpeed(m, v)
  }

  /** No public assignment changes a message's type, schema version or
      previous type, and only the id setter touches the id. Every assignment
      keeps the fields the setters guard in range; every assignment except
      one to the unguarded `LogLevelObj` field keeps a valid message valid,
      and a successful `LogLevel` assignment re-pairs the level object. */
  lemma MutationPreservesIdentity(m: Message, op: Mutation)
    requires Applicable(m, op)
    ensures TypeOf(Mutate(m, op).after) == TypeOf(m)
    ensures Mutate(m, op).after.header.schemaVersion == m.header.schemaVersion
    ensures Mutate(m, op).after.header.previousType == m.header.previousType
    ensures !op.SetId? ==> Mutate(m, op).after.header.id == m.header.id
    ensures FieldsInRange(m) ==> FieldsInRange(Mutate(m, op).after)
    ensures Valid(m) && !op.AssignLogLevelObj? ==> Valid(Mutate(m, op).after)
    ensures op.AssignLogLevel? && Mutate(m, op).Assigned? ==> LevelObjectMatches(Mutate(m, op).after)
  {
    match op
    case SetId(id) =>
    case AssignTestString(v) =>
    case AssignLogLevel(v) =>
    case AssignLogLevelObj(v) =>
    case AssignDevices(v) =>
    case AssignFleshlightSpeed(v) =>
    case AssignFleshlightPosition(v) =>
    case AssignKiirooPosition(v) =>
    case AssignVibrateSpeed(v) =>
  }

  /** Assigning `LogLevelObj` directly can pair a level name with another
      level's object; assigning the name again restores the pairing. */
  lemma LevelObjectAssignmentCanBreakValidity(id: Core.uint32)
    ensures Valid(NewRequestLogOff(id))
    ensures !Valid(Mutate(NewRequestLogOff(id), AssignLogLevelObj(Some(NLog.Fatal))).after)
    ensures Valid(MutateAll(NewRequestLogOff(id),
                            [AssignLogLevelObj(Some(NLog.Fatal)), AssignLogLevel(Some("Off"))]).after)
  {
    var m := NewRequestLogOff(id);
    var broken := Mutate(m, AssignLogLevelObj(Some(NLog.Fatal))).after;
    assert MutateAll(broken, [AssignLogLevel(Some("Off"))]) == MutateAll(Mutate(broken, AssignLogLevel(Some("Off"))).after, []);
  }

  /** A sequence of assignments, stopping at the first one that throws. An
      assignment to a property the message's class does not have is skipped. */
  function MutateAll(m: Message, ops: seq<Mutation>): (r: Assignment<Message>)
    decreases |ops|
  {
    if |ops| == 0 then Assigned(m)
    else if !Applicable(m, ops[0]) then MutateAll(m, ops[1..])
    else
      match Mutate(m, ops[0])
      case Threw(after, e) => Threw(after, e)
      case Assigned(after) => MutateAll(after, ops[1..])
  }

  /** However many public assignments are made, the type, the schema version
      and the previous type a message was constructed with stay as they were,
      the guarded fields stay in range, and a valid message stays valid unless
      `LogLevelObj` is assigned directly. */
  lemma {:induction false} VersionFixedAfterConstruction(m: Message, ops: seq<Mutation>)
    ensures MutateAll(m, ops).after.header.schemaVersion == m.header.schemaVersion
    ensures MutateAll(m, ops).after.header.previousType == m.header.previousType
    ensures TypeOf(MutateAll(m, ops).after) == TypeOf(m)
    ensures FieldsInRange(m) ==> FieldsInRange(MutateAll(m, ops).after)
    ensures Valid(m) && (forall i :: 0 <= i < |ops| ==> !ops[i].AssignLogLevelObj?)
            ==> Valid(MutateAll(m, ops).after)
    decreases |ops|
  {
    if |ops| > 0 {
      assert forall i :: 0 <= i < |ops| - 1 ==> ops[1..][i] == ops[i + 1];
      if !Applicable(m, ops[0]) {
        VersionFixedAfterConstruction(m, ops[1..]);
      } else {
        MutationPreservesIdentity(m, ops[0]);
        var a := Mutate(m, ops[0]);
        if a.Assigned? {
          VersionFixedAfterConstruction(a.after, ops[1..]);
        }
      }
    }
  }

  // ---------------------------------------------------------------------
  // Constructors. None of the classes passes a schema version or previous
  // type, so every message below is a version-0 message with no predecessor.

  function NewOk(id: Core.uint32): (m: Message)
    ensures TypeOf(m) == Core.Ok && m.header == Core.NewHeader(id)
  {
    Message(Core.NewHeader(id), Ok)
  }

  function NewPing(id: Core.uint32): (m: Message)
    ensures TypeOf(m) == Core.Ping && m.header == Core.NewHeader(id)
  {
    Message(Core.NewHeader(id), Ping)
  }

  /** `Test(aString, aId)`: fails exactly when the string is "Error". */
  function NewTest(s: string, id: Core.uint32): (r: Result<Message, ValidationError>)
    ensures r.Success? <==> s != "Error"
    ensures r.Success? ==> r.value.header == Core.NewHeader(id) && r.value.body.Test?
                           && r.value.body.testString == s
    ensures r.Failure? ==> r.error == ErrorTestString
  {
    Construct(SetTestString(Message(Core.NewHeader(id), Test("")), s))
  }

  function NewError(text: string, id: Core.uint32): (m: Message)
    ensures TypeOf(m) == Core.Error && m.header == Core.NewHeader(id)
    ensures m.body.errorMessage == text
  {
    Message(Core.NewHeader(id), Error(text, None))
  }

  function NewDeviceList(devices: seq<DeviceMessageInfo>, id: Core.uint32): (m: Message)
    ensures TypeOf(m) == Core.DeviceList && m.header == Core.NewHeader(id)
    ensures m.body.devices == devices
  {
    Message(Core.NewHeader(id), DeviceList(devices))
  }

  /** Stamped with the system id whatever the index and name. */
  function NewDeviceAdded(index: Core.uint32, name: string): (m: DeviceMessage)
    ensures m.header.id == Core.SystemMsgId
    ensures TypeOf(m) == Core.DeviceAdded && m.body.deviceIndex == index && m.body.deviceName == name
  {
    Message(Core.NewHeader(Core.SystemMsgId), DeviceAdded(index, name))
  }

  /** Stamped with the system id whatever the index. */
  function NewDeviceRemoved(index: Core.uint32): (m: Message)
    ensures m.header.id == Core.SystemMsgId
    ensures TypeOf(m) == Core.DeviceRemoved && m.body.deviceIndex == index
  {
    Message(Core.NewHeader(Core.SystemMsgId), DeviceRemoved(index))
  }

  function NewRequestDeviceList(id: Core.uint32 := Core.DefaultMsgId): (m: Message)
    ensures TypeOf(m) == Core.RequestDeviceList && m.header == Core.NewHeader(id)
  {
    Message(Core.NewHeader(id), RequestDeviceList)
  }

  function NewStartScanning(id: Core.uint32 := Core.DefaultMsgId): (m: Message)
    ensures TypeOf(m) == Core.StartScanning && m.header == Core.NewHeader(id)
  {
    Message(Core.NewHeader(id), StartScanning)
  }

  function NewStopScanning(id: Core.uint32 := Core.DefaultMsgId): (m: Message)
    ensures TypeOf(m) == Core.StopScanning && m.header == Core.NewHeader(id)
  {
    Message(Core.NewHeader(id), StopScanning)
  }

  /** Always stamped with the system id. */
  function NewScanningFinished(): (m: Message)
    ensures m.header.id == Core.SystemMsgId && TypeOf(m) == Core.ScanningFinished
  {
    Message(Core.NewHeader(Core.SystemMsgId), ScanningFinished)
  }

  /** The parameterless constructor kept for the JSON reader: no level is set. */
  function NewBlankRequestLog(): (m: Message)
    ensures TypeOf(m) == Core.RequestLog && m.header == Core.NewHeader(Core.DefaultMsgId)
    ensures m.body.logLevel.None? && m.body.logLevelObj.None?
  {
    Message(Core.NewHeader(Core.DefaultMsgId), RequestLog(None, None))
  }

  /** `RequestLog(aLogLevel, aId)`: succeeds exactly for a non-null name in
      the level table, and stores that name and its table entry. */
  function NewRequestLog(level: Option<string>, id: Core.uint32 := Core.DefaultMsgId)
    : (r: Result<Message, ValidationError>)
    ensures r.Success? <==> level.Some? && level.value in Levels
    ensures r.Success? ==> r.value.header == Core.NewHeader(id) && r.value.body.RequestLog?
                           && r.value.body.logLevel == level
                           && r.value.body.logLevelObj == Some(Levels[level.value])
    ensures r.Failure? ==> r.error == InvalidLogLevel(level)
  {
    Construct(SetLogLevel(Message(Core.NewHeader(id), RequestLog(None, None)), level))
  }

  /** `RequestLog(aId)`: the level is "Off". */
  function NewRequestLogOff(id: Core.uint32): (m: Message)
    ensures m.header == Core.NewHeader(id)
    ensures m.body == RequestLog(Some("Off"), Some(NLog.Off))
  {
    var r := Construct(SetLogLevel(Message(Core.NewHeader(id), RequestLog(None, None)), Some("Off")));
    r.value
  }

  /** `RequestLog(aId)` is `RequestLog("Off", aId)`, which never fails. */
  lemma RequestLogDefaultsToOff(id: Core.uint32)
    ensures NewRequestLog(Some("Off"), id) == Success(NewRequestLogOff(id))
  {
  }

  /** Stamped with the system id whatever the level and text. */
  function NewLog(level: string, text: string): (m: Message)
    ensures m.header.id == Core.SystemMsgId
    ensures TypeOf(m) == Core.Log && m.body.levelName == level && m.body.logMessage == text
  {
    Message(Core.NewHeader(Core.SystemMsgId), Log(level, text))
  }

  function NewRequestServerInfo(id: Core.uint32 := Core.DefaultMsgId): (m: Message)
    ensures TypeOf(m) == Core.RequestServerInfo && m.header == Core.NewHeader(id)
  {
    Message(Core.NewHeader(id), RequestServerInfo)
  }

  /** The version numbers, read from the assembly in the source, are given. */
  function NewServerInfo(major: int, minor: int, build: int, id: Core.uint32 := Core.DefaultMsgId)
    : (m: Message)
    ensures TypeOf(m) == Core.ServerInfo && m.header == Core.NewHeader(id)
    ensures m.body == ServerInfo(major, minor, build)
  {
    Message(Core.NewHeader(id), ServerInfo(major, minor, build))
  }

  /** `FleshlightLaunchRawCmd`: the speed setter runs first, then the
      position setter; each accepts 0..99. */
  function NewFleshlightLaunchRawCmd(index: Core.uint32, speed: Core.uint16, position: Core.uint16,
                                     id: Core.uint32 := Core.DefaultMsgId)
    : (r: Result<DeviceMessage, ValidationError>)
    ensures r.Success? <==> speed <= 99 && position <= 99
    ensures r.Success? ==> r.value == Message(Core.NewHeader(id), FleshlightLaunchRawCmd(index, speed, position))
    ensures r.Failure? ==> r.error == (if speed > 99 then FleshlightSpeedTooHigh else FleshlightPositionTooHigh)
  {
    var blank := Message(Core.NewHeader(id), FleshlightLaunchRawCmd(index, 0, 0));
    var withSpeed :- Construct(SetFleshlightSpeed(blank, speed));
    var done :- Construct(SetFleshlightPosition(withSpeed, position));
    Success(done)
  }

  /** `LovenseRawCmd`: the command argument is ignored. */
  function NewLovenseRawCmd(index: Core.uint32, command: string, id: Core.uint32 := Core.DefaultMsgId)
    : (m: DeviceMessage)
    ensures TypeOf(m) == Core.LovenseRawCmd && m.header == Core.NewHeader(id)
    ensures m.body.deviceIndex == index
  {
    Message(Core.NewHeader(id), LovenseRawCmd(index))
  }

  /** Two raw Lovense commands differing only in their command text are equal. */
  lemma LovenseRawCmdIgnoresCommand(index: Core.uint32, c1: string, c2: string, id: Core.uint32)
    ensures NewLovenseRawCmd(index, c1, id) == NewLovenseRawCmd(index, c2, id)
  {
  }

  /** `KiirooRawCmd`: the position must be 0..4. */
  function NewKiirooRawCmd(index: Core.uint32, position: Core.uint16, id: Core.uint32 := Core.DefaultMsgId)
    : (r: Result<DeviceMessage, ValidationError>)
    ensures r.Success? <==> position <= 4
    ensures r.Success? ==> r.value == Message(Core.NewHeader(id), KiirooRawCmd(index, position))
    ensures r.Failure? ==> r.error == KiirooPositionTooHigh
  {
    var r := Construct(SetKiirooPosition(Message(Core.NewHeader(id), KiirooRawCmd(index, 0)), position));
    if r.Success? then Success(r.value) else Failure(r.error)
  }

  /** `SingleMotorVibrateCmd`: the speed must be a number in [0, 1]; below 0
      and above 1 fail with different errors. */
  function NewSingleMotorVibrateCmd(index: Core.uint32, speed: D.Double, id: Core.uint32 := Core.DefaultMsgId)
    : (r: Result<DeviceMessage, ValidationError>)
    ensures r.Success? <==> InUnitInterval(speed)
    ensures r.Success? ==> r.value == Message(Core.NewHeader(id), SingleMotorVibrateCmd(index, speed.value))
    ensures D.LessThan(speed, 0.0) ==> r == Failure(VibrateSpeedBelowZero)
    ensures D.GreaterThan(speed, 1.0) ==> r == Failure(VibrateSpeedAboveOne)
  {
    var r := Construct(SetVibrateSpeed(Message(Core.NewHeader(id), SingleMotorVibrateCmd(index, 0.0)), speed));
    if r.Success? then Success(r.value) else Failure(r.error)
  }

  /** Boundary values: 99 is the largest speed and position a Fleshlight
      command takes, 4 the largest Kiiroo position. */
  lemma BoundaryValues(index: Core.uint32)
    ensures NewFleshlightLaunchRawCmd(index, 99, 99).Success?
    ensures NewFleshlightLaunchRawCmd(index, 100, 0) == Failure(FleshlightSpeedTooHigh)
    ensures NewFleshlightLaunchRawCmd(index, 0, 100) == Failure(FleshlightPositionTooHigh)
    ensures NewKiirooRawCmd(index, 4).Success?
    ensures NewKiirooRawCmd(index, 5) == Failure(KiirooPositionTooHigh)
    ensures NewSingleMotorVibrateCmd(index, D.Finite(1.0)).Success?
    ensures NewSingleMotorVibrateCmd(index, D.Finite(-0.5)) == Failure(VibrateSpeedBelowZero)
    ensures NewSingleMotorVibrateCmd(index, D.Finite(1.5)) == Failure(VibrateSpeedAboveOne)
  {
  }

  // ---------------------------------------------------------------------
  // Facts about everything the constructors build

  /** What any constructor of the vocabulary can produce. */
  ghost predicate Constructed(m: Message)
  {
    || (exists id :: m == NewOk(id))
    || (exists id :: m == NewPing(id))
    || (exists s, id :: NewTest(s, id) == Success(m))
    || (exists t, id :: m == NewError(t, id))
    || (exists ds, id :: m == NewDeviceList(ds, id))
    || (exists i, n :: m == NewDeviceAdded(i, n))
    || (exists i :: m == NewDeviceRemoved(i))
    || (exists id :: m == NewRequestDeviceList(id))
    || (exists id :: m == NewStartScanning(id))
    || (exists id :: m == NewStopScanning(id))
    || m == NewScanningFinished()
    || m == NewBlankRequestLog()
    || (exists l, id :: NewRequestLog(l, id) == Success(m))
    || (exists l, t :: m == NewLog(l, t))
    || (exists id :: m == NewRequestServerInfo(id))
    || (exists a, b, c, id :: m == NewServerInfo(a, b, c, id))
    || (exists i, s, p, id :: NewFleshlightLaunchRawCmd(i, s, p, id) == Success(m))
    || (exists i, c, id :: m == NewLovenseRawCmd(i, c, id))
    || (exists i, p, id :: NewKiirooRawCmd(i, p, id) == Success(m))
    || (exists i, s, id :: NewSingleMotorVibrateCmd(i, s, id) == Success(m))
  }

  /** Every constructed message meets its field constraints, is a version-0
      message no newer than the current schema, and has no previous type. */
  lemma ConstructedMessagesAreWellFormed(m: Message)
    requires Constructed(m)
    ensures Valid(m)
    ensures m.header.schemaVersion == Core.DefaultSchemaVersion <= Core.CurrentSchemaVersion
    ensures m.header.previousType.None?
  {
  }

  /** Messages whose id the caller does not choose: those the server stamps
      with the system id, and those built with the id argument omitted. */
  ghost predicate IdChosenByConstructor(m: Message)
  {
    || (exists i, n :: m == NewDeviceAdded(i, n))
    || (exists i :: m == NewDeviceRemoved(i))
    || m == NewScanningFinished()
    || (exists l, t :: m == NewLog(l, t))
    || m == NewRequestDeviceList()
    || m == NewStartScanning()
    || m == NewStopScanning()
    || m == NewBlankRequestLog()
    || (exists l :: NewRequestLog(l) == Success(m))
    || m == NewRequestServerInfo()
    || (exists a, b, c :: m == NewServerInfo(a, b, c))
    || (exists i, s, p :: NewFleshlightLaunchRawCmd(i, s, p) == Success(m))
    || (exists i, c :: m == NewLovenseRawCmd(i, c))
    || (exists i, p :: NewKiirooRawCmd(i, p) == Success(m))
    || (exists i, s :: NewSingleMotorVibrateCmd(i, s) == Success(m))
  }

  /** A message whose id the constructor chooses always meets the id rule:
      the zero system id goes only on responses and server events, and the
      default id is non-zero. */
  lemma ConstructorChosenIdsMeetIdRule(m: Message)
    requires IdChosenByConstructor(m)
    ensures m.header.id == Core.SystemMsgId ==> Core.IsOutgoingOnly(TypeOf(m))
    ensures Core.SatisfiesIdRule(m.header, TypeOf(m))
  {
  }

  /** The id rule is not vacuous: a client request with id 0 breaks it, while
      a server event with id 0 keeps it. */
  lemma IdRuleSeparatesRequestsFromEvents()
    ensures !Core.SatisfiesIdRule(NewPing(0).header, TypeOf(NewPing(0)))
    ensures Core.SatisfiesIdRule(NewScanningFinished().header, TypeOf(NewScanningFinished()))
  {
  }
}
