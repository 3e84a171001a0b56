# Buttplug protocol core in Dafny

This project models the core of the C# Buttplug server, a protocol for controlling hardware. It has three pieces:

- **The message vocabulary** (`messages.dfy`, `message_core.dfy`). Every message carries a header with an id, a schema version and an optional previous-type link. Command messages check their fields in property setters and throw `ArgumentException` on out-of-range values. The model writes each setter as a function returning an `Assignment`: either the value was stored, or the setter threw and the object is as it was. Constructors run their setters and return a `Result`. Messages the server raises are stamped with the system message id.
- **The device handle** (`device.dfy`). A device holds a map from message type to a wrapper (handler plus attributes), a disconnected flag, and a count of device-removed events fired. `ParseMessage` checks disconnection first, then whether the type has a handler, then calls the handler. The handle's life is a sequence of `Operation`s: set index, dispatch, initialize, device removed. Lemmas over any such sequence show that:
  - the handler table never changes;
  - disconnection is permanent;
  - the removed event fires once per call.
- **The Lovense adapter** (`lovense.dfy`, `decimal.dfy`). This covers the Bluetooth descriptor constants and `CreateDevice`. It also covers the translation of a vibrate speed into the text `Vibrate:<n>;` with `n = (int)(speed * 20)`. Each transport write is appended to a log.

`wrappers.dfy` defines `Option` and `Result`. `doubles.dfy` models C# `double` comparisons, including NaN and the infinities. `nlog.dfy` holds NLog's log levels as opaque tags.

Points where the code behaves in a way a reader might not expect, which the model follows:
- `InvokeDeviceRemoved` fires the device-removed event on every call, so removing a device twice fires it twice (`ButtplugDevice.RunKeepsTableAndCountsRemovals`, `ButtplugDevice.RemovalScenario`).
- The Lovense level is truncated by an `(int)` cast, not rounded.
- `Lovense.ParseMessage` returns only a handled flag and matches a class named `SingleMotorVibrateMessage`; this is an older adapter interface. The model reads that class as `SingleMotorVibrateCmd` and keeps the adapter outside the dispatch table.
- The `Error` class in `Messages.cs` has no error class, but the device's `LogErrorMsg` returns an error that has one. `Messages.Body.Error` therefore carries an optional `ErrorClass`. The class is absent for `Messages.NewError` and is `ErrorDevice` for device errors.

## Model

| member | source | states |
|---|---|---|
| MessageCore.NewHeader | Buttplug.Core/ButtplugMessage.cs:60-65 | the base constructor stores exactly the given id, schema version and previous type |
| MessageCore.DefaultHeaderIsOriginal | Buttplug.Core/ButtplugMessage.cs:46-52 | with the version arguments omitted, a message is version 0 with no previous type, and version 0 is no newer than the current schema version 1 |
| MessageCore.WithId | Buttplug.Core/ButtplugMessage.cs:27-28 | the public `Id` setter changes the id and leaves the schema version and previous type as they were |
| MessageCore.TypeNameRoundTrip | Buttplug.Core/ButtplugDevice.cs:157 | a type's class name reads back as that type, so distinct types have distinct names |
| MessageCore.TypeNameInjective | Buttplug.Core/ButtplugDevice.cs:157 | two message types with the same class name are the same type |
| MessageCore.IsOutgoingOnly | Buttplug.Core/ButtplugMessage.cs:68-74 | the types marked `IButtplugMessageOutgoingOnly` (Ok, Error, DeviceList, DeviceAdded, DeviceRemoved, ScanningFinished, Log, ServerInfo) are the ones only the server sends; its use is stated by `Messages.ConstructorChosenIdsMeetIdRule` |
| MessageCore.SatisfiesIdRule | Buttplug.Core/ButtplugMessage.cs:57 | the documented id rule: an id is non-zero unless the message answers another or is a server event; `Messages.IdRuleSeparatesRequestsFromEvents` shows it is not vacuous |
| Messages.MutationPreservesIdentity | Buttplug.Core/ButtplugMessage.cs:27-44 | no public assignment (the validating setters, `Id`, `RequestLog.LogLevelObj`, `DeviceList.Devices`) changes a message's type, schema version or previous type; only the id setter changes the id; every assignment keeps the setter-guarded fields in range; every assignment except one to `LogLevelObj` keeps a valid message valid; a successful `LogLevel` assignment re-pairs name and level object |
| Messages.VersionFixedAfterConstruction | Buttplug.Core/ButtplugMessage.cs:30-44 | after any sequence of public assignments, the schema version, previous type and type are those fixed at construction; the setter-guarded fields stay in range; a valid message stays valid when `LogLevelObj` is never assigned directly |
| Messages.LevelObjectAssignmentCanBreakValidity | Buttplug/Messages/Messages.cs:141-155 | assigning the public `LogLevelObj` field directly can pair "Off" with the Fatal level object; assigning `LogLevel` again restores the pairing |
| Messages.ConstructedMessagesAreWellFormed | Buttplug.Core/ButtplugMessage.cs:54-65 | every message any constructor builds meets its field constraints, is a version-0 message no newer than the current schema, and has no previous type |
| Messages.ConstructorChosenIdsMeetIdRule | Buttplug.Core/ButtplugMessage.cs:57 | every message whose id the constructor chooses meets the id rule (non-zero, or a response or server event); this covers the system-stamped events and messages built with the default id. Only outgoing-only types get the zero system id |
| Messages.IdRuleSeparatesRequestsFromEvents | Buttplug.Core/ButtplugMessage.cs:57 | the id rule is not vacuous: a `Ping` with id 0 breaks it, while `ScanningFinished` with the zero system id keeps it |
| Messages.NewOk | Buttplug/Messages/Messages.cs:11-15 | an `Ok` carries the given id and the default version fields |
| Messages.NewPing | Buttplug/Messages/Messages.cs:17-21 | a `Ping` carries the given id and the default version fields |
| Messages.SetTestString | Buttplug/Messages/Messages.cs:28-39 | the string is stored iff it is not "Error"; on "Error" the setter throws and the message is unchanged |
| Messages.TextsIdentifyErrors | Buttplug/Messages/Messages.cs:35-292 | two setter exceptions share a text only when they are the same error, or level errors for a null and an empty level, which interpolate alike |
| Messages.NewTest | Buttplug/Messages/Messages.cs:41-44 | construction succeeds iff the string is not "Error", and then stores it with the given id |
| Messages.NewError | Buttplug/Messages/Messages.cs:47-56 | an `Error` carries the given text and id |
| Messages.NewDeviceList | Buttplug/Messages/Messages.cs:70-78 | a `DeviceList` carries the given devices and id |
| Messages.NewDeviceAdded | Buttplug/Messages/Messages.cs:80-88 | `DeviceAdded` carries the system id whatever its index and name, and stores both |
| Messages.NewDeviceRemoved | Buttplug/Messages/Messages.cs:90-98 | `DeviceRemoved` carries the system id whatever its index, and stores the index |
| Messages.NewRequestDeviceList | Buttplug/Messages/Messages.cs:100-105 | carries the given id, or the default id when none is given |
| Messages.NewStartScanning | Buttplug/Messages/Messages.cs:107-112 | carries the given id, or the default id when none is given |
| Messages.NewStopScanning | Buttplug/Messages/Messages.cs:114-119 | carries the given id, or the default id when none is given |
| Messages.NewScanningFinished | Buttplug/Messages/Messages.cs:121-126 | `ScanningFinished` always carries the system id |
| Messages.SetLogLevel | Buttplug/Messages/Messages.cs:130-157 | a level is stored iff it is non-null and one of Off, Fatal, Error, Warn, Info, Debug or Trace; the stored level object is that name's table entry; otherwise the setter throws naming the level and the message is unchanged |
| Messages.NewBlankRequestLog | Buttplug/Messages/Messages.cs:160-162 | the parameterless constructor leaves both the level name and the level object unset |
| Messages.NewRequestLogOff | Buttplug/Messages/Messages.cs:164 | `RequestLog(aId)` has level "Off" with the matching level object |
| Messages.RequestLogDefaultsToOff | Buttplug/Messages/Messages.cs:164-169 | `RequestLog(aId)` equals a successful `RequestLog("Off", aId)` |
| Messages.NewRequestLog | Buttplug/Messages/Messages.cs:166-169 | construction succeeds iff the level is a non-null table name, and then stores the name and its level object |
| Messages.NewLog | Buttplug/Messages/Messages.cs:172-182 | `Log` carries the system id whatever its level and text, and stores both |
| Messages.NewRequestServerInfo | Buttplug/Messages/Messages.cs:184-188 | carries the given id, or the default id when none is given |
| Messages.NewServerInfo | Buttplug/Messages/Messages.cs:190-202 | `ServerInfo` stores the given version numbers and id |
| Messages.SetFleshlightSpeed | Buttplug/Messages/Messages.cs:209-220 | a speed is stored iff it is at most 99; a larger one throws and leaves the message unchanged |
| Messages.SetFleshlightPosition | Buttplug/Messages/Messages.cs:225-236 | a position is stored iff it is at most 99; a larger one throws and leaves the message unchanged |
| Messages.NewFleshlightLaunchRawCmd | Buttplug/Messages/Messages.cs:238-242 | construction succeeds iff speed and position are both at most 99; when both are too large, the speed error is reported, because the speed setter runs first |
| Messages.NewLovenseRawCmd | Buttplug/Messages/Messages.cs:245-250 | a raw Lovense command stores the device index and id |
| Messages.LovenseRawCmdIgnoresCommand | Buttplug/Messages/Messages.cs:247-249 | the command text has no effect on the message built |
| Messages.SetKiirooPosition | Buttplug/Messages/Messages.cs:257-268 | a position is stored iff it is at most 4; a larger one throws and leaves the message unchanged |
| Messages.NewKiirooRawCmd | Buttplug/Messages/Messages.cs:270-273 | construction succeeds iff the position is 0..4 |
| Messages.NaNPassesVibrateGuardAsWritten | Buttplug/Messages/Messages.cs:286-294 | the guard as written lets NaN through although NaN is not in [0, 1] |
| Messages.SetVibrateSpeed | Buttplug/Messages/Messages.cs:281-296 | a speed is stored iff it is a number in [0, 1]; below 0 and above 1 throw different errors; a rejected speed leaves the message unchanged |
| Messages.VibrateGuardAgreesExceptNaN | Buttplug/Messages/Messages.cs:286-294 | on every double except NaN, the setter accepts exactly what the guard as written accepts |
| Messages.NewSingleMotorVibrateCmd | Buttplug/Messages/Messages.cs:298-301 | construction succeeds iff the speed is in [0, 1]; negative speeds and speeds above 1 fail with distinct errors |
| Messages.BoundaryValues | Buttplug/Messages/Messages.cs:214-294 | 99 is accepted and 100 refused for Fleshlight speed and position; 4 is accepted and 5 refused for Kiiroo position; 1.0 is accepted, -0.5 refused as too low and 1.5 refused as too high |
| ButtplugDevice.NewWrapper | Buttplug.Core/ButtplugDevice.cs:81-86 | a wrapper built with null attributes stores the default attributes, so a new wrapper's attributes are never null |
| ButtplugDevice.NewDevice | Buttplug.Core/ButtplugDevice.cs:95-103 | a new device is connected, has fired no removed event and advertises no types |
| ButtplugDevice.IsConnected | Buttplug.Core/ButtplugDevice.cs:33 | a device is connected until its removal is invoked; `ButtplugDevice.InvokeDeviceRemoved` and `ButtplugDevice.DisconnectionIsPermanent` state how the flag changes |
| ButtplugDevice.AddHandler | Buttplug.Core/ButtplugDevice.cs:57 | registering a type succeeds iff it has no handler yet, and then adds that one entry and changes nothing else |
| ButtplugDevice.GetAllowedMessageTypes | Buttplug.Core/ButtplugDevice.cs:109-112 | the advertised types are exactly the types in the dispatch table, whether or not the device is connected; on a connected device, a message of an advertised type reaches its handler and any other is refused with the unsupported-type error |
| ButtplugDevice.RegistrationIsAdvertised | Buttplug.Core/ButtplugDevice.cs:109-127 | after registering a type, the advertised types are the old ones plus that type; its attributes are the given ones, or the defaults; other types' attributes are unchanged |
| ButtplugDevice.GetMessageAttrs | Buttplug.Core/ButtplugDevice.cs:119-127 | returns a registered type's attributes; the defaults when the type is registered with null attributes or not registered at all; it never fails |
| ButtplugDevice.InvokeDeviceRemoved | Buttplug.Core/ButtplugDevice.cs:133-137 | the device becomes disconnected, the removed event fires once more, and nothing else changes |
| ButtplugDevice.DeviceError | Buttplug.Core/ButtplugDevice.cs:150-151 | a device error is an `Error` of class device, carrying the request's id and the given text |
| ButtplugDevice.ParseMessage | Buttplug.Core/ButtplugDevice.cs:146-163 | a disconnected device answers with the disconnected error whatever the type; a connected device answers an unregistered type with the unsupported-type error; otherwise it returns the handler's answer unmodified |
| ButtplugDevice.DisconnectedTextIsNotUnsupportedText | Buttplug.Core/ButtplugDevice.cs:148-158 | the disconnected error text and the unsupported-type error text always differ |
| ButtplugDevice.UnsupportedErrorNamesType | Buttplug.Core/ButtplugDevice.cs:154-158 | the unsupported-type error carries the request id, and the message type can be read back from its text |
| ButtplugDevice.AdvertisedTypesReachHandler | Buttplug.Core/ButtplugDevice.cs:146-163 | on a connected device, an advertised type reaches its handler, and any other type gets an error that names it |
| ButtplugDevice.Initialize | Buttplug.Core/ButtplugDevice.cs:169-172 | the default initialization answers `Ok` with the system id |
| ButtplugDevice.RunKeepsTableAndCountsRemovals | Buttplug.Core/ButtplugDevice.cs:133-137 | across any sequence of operations, the name, identifier, handler table and advertised types stay fixed; the device ends disconnected iff it started so or was removed; the removed event fired once per removal |
| ButtplugDevice.DisconnectionIsPermanent | Buttplug.Core/ButtplugDevice.cs:133-152 | once disconnected, the device stays disconnected, and every later dispatch is refused with the disconnected error |
| ButtplugDevice.RemovalScenario | Buttplug.Core/ButtplugDevice.cs:133-163 | a supported message reaches its handler until the device is removed and is refused after; removing twice fires the event twice |
| Decimal.NatToString | Buttplug/Devices/Lovense.cs:50 | an interpolated non-negative int is a non-empty run of digits with no leading zero |
| Decimal.NatRoundTrip | Buttplug/Devices/Lovense.cs:50 | reading the decimal text of a natural number gives the number back |
| Decimal.IntRoundTrip | Buttplug/Devices/Lovense.cs:50 | reading the decimal text of an int, with a sign for negatives, gives the int back |
| Lovense.InfoShape | Buttplug/Devices/Lovense.cs:11-21 | the descriptor has the names {"LVS-S001", "LVS-Z001"}, one service, and two distinct characteristics, tx before rx |
| Lovense.CreateDevice | Buttplug/Devices/Lovense.cs:23-26 | succeeds iff there are at least two characteristics, and binds characteristic 0 for writing and characteristic 1 for reading |
| Lovense.DeviceNameWrapsPeripheralName | Buttplug/Devices/Lovense.cs:34-41 | the device name is "Lovense Device (" + peripheral name + ")", from which the peripheral name reads back |
| Lovense.WriteChannelIsTx | Buttplug/Devices/Lovense.cs:17-26 | when characteristics come in the descriptor's order, the device writes to tx and reads from rx |
| Lovense.Truncate | Buttplug/Devices/Lovense.cs:50 | the `(int)` cast gives the integer of the same sign that lies within 1 of the value, toward zero |
| Lovense.WireValue | Buttplug/Devices/Lovense.cs:50 | the level for a non-negative speed is the whole number of 1/20 steps in it (`r <= speed * 20 < r + 1`); a negative speed gives a level of at most 0 |
| Lovense.WireValueIsWholeSteps | Buttplug/Devices/Lovense.cs:50 | for a non-negative speed, step `k` of 1/20 is reached iff `k` is at most the level, so the level is the number of whole steps in the speed |
| Lovense.WireValueBoundedAndMonotone | Buttplug/Devices/Lovense.cs:50 | speeds in [0, 1] map into 0..20, and a faster speed never maps to a lower level |
| Lovense.WireValueExamples | Buttplug/Devices/Lovense.cs:50 | 0 maps to 0, 0.5 to 10 and 1.0 to 20 |
| Lovense.VibrateCommandRoundTrip | Buttplug/Devices/Lovense.cs:50 | the level reads back from a written `Vibrate:<n>;` command |
| Lovense.ParseMessage | Buttplug/Devices/Lovense.cs:43-58 | a vibrate message is handled with exactly one write of `Vibrate:<level>;` to the write channel; any other message is unhandled and writes nothing |
| Lovense.VibrateWritesItsLevel | Buttplug/Devices/Lovense.cs:47-54 | for a valid vibrate message, the log grows by exactly one tx write, and that write reads back as the speed's level, which lies in 0..20 |
| Lovense.HalfSpeedScenario | Buttplug/Devices/Lovense.cs:47-54 | a validly constructed half-speed vibrate message is handled by writing `Vibrate:10;` |

## Left out

- Asynchrony and events: `Task`/`await` are modelled by the value each `Task` yields. The `DeviceRemoved` event is modelled only as a counter, and `MessageEmitted`/`EmitMessage` are not modelled. The race between disconnection and an in-flight dispatch is concurrency and is not modelled.
- Handlers are pure functions here. A C# handler with side effects on its device, such as removing it, is not modelled. So `ParseMessage` cannot change the table or the flag by construction.
- `Disconnect` is abstract in the source and has no body to model. Only `InvokeDeviceRemoved` is modelled.
- Logging through `BpLogger` is left out. The one exception is the error message `LogErrorMsg` returns, modelled as `ButtplugDevice.DeviceError`.
- `ButtplugConsts` is not part of this model. The system id is taken as 0, which the id rule requires of server events. The default id is taken as 1; proofs use only that it is non-zero.
- `ButtplugDeviceMessage`, `MessageAttributes` and the `ErrorClass` enumeration are not part of this model. Their stand-ins are:
  - a device index field on each device-message body;
  - an optional feature count;
  - the five error classes of the Buttplug protocol, of which only the device class is used.
- JSON attributes and serialization are not modelled. `ServerInfo` reads its version numbers from the assembly by reflection; here they are parameters.
- Null strings are not modelled, except for the `RequestLog` level, where the source checks for null.
- Reassigning the public field `ButtplugDeviceWrapper.Function` after registration is not modelled. `ButtplugDeviceWrapper.Attrs` may be null, which `GetMessageAttrs` handles. The public fields `RequestLog.LogLevelObj` and `DeviceList.Devices` are among the modelled assignments.
- Bluetooth I/O is not modelled: `DataWriter`, `GattCharacteristic.WriteValueAsync`, `BluetoothLEDevice`, and the UTF-8 encoding of the ASCII payload. A write is appended to a log and never fails; the source does not inspect the write's outcome either.
- Messages.NewSingleMotorVibrateCmd: the model stores the vibrate speed as a `real`, so a NaN speed cannot be represented, and both this constructor and the `Speed` assignment inside `Messages.Mutate` use the corrected guard `Messages.SetVibrateSpeed` from the Findings row. In the source a NaN speed is accepted (Messages.cs lines 286-294). So these statements hold of the corrected program but fail for NaN in the source: this constructor succeeds iff the speed is in [0, 1]; `Messages.ConstructedMessagesAreWellFormed` says every constructed message meets its field constraints; `Messages.MutationPreservesIdentity` and `Messages.VersionFixedAfterConstruction` say the setter-guarded fields stay in range.
- ButtplugDevice.AddHandler: the duplicate-type failure assumes that concrete devices fill `MsgFuncs` with `Dictionary.Add`. The subclasses that register handlers are not part of this model, and the base class declares only the dictionary (ButtplugDevice.cs line 57).
- Lovense.WireValue: speeds are exact reals, so the level is computed from the exact product. C# rounds `speed * 20` to a double first, so for some in-range doubles the C# level is one higher: the double nearest 0.3 lies just below 0.3, giving level 5 here, while its product rounds to exactly 6.0 and C# writes `Vibrate:6;`. The same happens near 0.15, 0.35, 0.6, 0.7, 0.85 and 0.95. The overflow of the `(int)` cast beyond 32 bits is not modelled either; validation keeps speeds in [0, 1]. In the source NaN passes validation (see Findings) and reaches Lovense, where `(int)(NaN * 20)` is unspecified; here the constructor refuses NaN, so it never reaches `Lovense.ParseMessage`.
- `DeviceSubtypeManager` and `BluetoothSubtypeManager` are not modelled. They are event plumbing, abstract scanning methods and a constant list of descriptor classes that are not part of this model, and no peripheral-matching logic appears in them.

## Findings

| source | as written | input that shows it | evidently intended | confidence | as-written member | corrected member |
|---|---|---|---|---|---|---|
| Buttplug/Messages/Messages.cs:286-294 | the speed is refused only if `value < 0` or `value > 1`, and both comparisons are false for NaN | `SingleMotorVibrateCmd` speed `double.NaN` is stored | store a speed only when it lies in [0, 1] | medium, not executed | Messages.NaNPassesVibrateGuardAsWritten | Messages.SetVibrateSpeed |
