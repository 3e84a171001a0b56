/** A device handle (Buttplug.Core/ButtplugDevice.cs): a name, an index
    assigned by the owner, a table from message type to handler and
    attributes, and a flag that records disconnection. */
module ButtplugDevice {
  import opened Wrappers
  import Core = MessageCore
  import M = Messages

  /** The capability attributes of one message type; the attribute class
      itself is modelled only as an optional feature count. */
  datatype MessageAttributes = MessageAttributes(featureCount: Option<nat>)

  /** `new MessageAttributes()`: no attribute set. */
  const DefaultAttributes := MessageAttributes(None)

  /** A message handler; the asynchronous task it returns is modelled by its result. */
  type Handler = M.DeviceMessage -> M.Message

  /** `ButtplugDeviceWrapper`. Its `Attrs` field is public, so it can be set
      to null after construction; the constructor itself never leaves it null. */
  datatype Wrapper = Wrapper(handler: Handler, attrs: Option<MessageAttributes>)

  /** The wrapper constructor: omitted or null attributes become the defaults. */
  function NewWrapper(handler: Handler, attrs: Option<MessageAttributes> := None): (w: Wrapper)
    ensures w.handler == handler
    ensures w.attrs.Some?
    ensures attrs.Some? ==> w.attrs == attrs
    ensures attrs.None? ==> w.attrs == Some(DefaultAttributes)
  {
    Wrapper(handler, Some(attrs.GetOr(DefaultAttributes)))
  }

  /** `removedEvents` counts how often the device-removed event has fired. */
  datatype Device = Device(
    name: string,
    identifier: string,
    index: Core.uint32,
    msgFuncs: map<Core.MessageType, Wrapper>,
    isDisconnected: bool,
    removedEvents: nat)

  /** The `ButtplugDevice` constructor: connected, index 0, no handlers. */
  function NewDevice(name: string, identifier: string): (d: Device)
    ensures d.name == name && d.identifier == identifier
    ensures IsConnected(d) && d.removedEvents == 0
    ensures GetAllowedMessageTypes(d) == {}
  {
    Device(name, identifier, 0, map[], false, 0)
  }

  predicate IsConnected(d: Device)
  {
    !d.isDisconnected
  }

  /** `Dictionary.Add` throws when the type already has a handler. */
  datatype RegistrationError = DuplicateMessageType(messageType: Core.MessageType)

  /** How a concrete device fills its table while it is being constructed. */
  function AddHandler(d: Device, t: Core.MessageType, w: Wrapper): (r: Result<Device, RegistrationError>)
    ensures r.Success? <==> t !in d.msgFuncs
    ensures r.Failure? ==> r.error == DuplicateMessageType(t)
    ensures r.Success? ==> r.value.msgFuncs == d.msgFuncs[t := w]
                           && r.value.(msgFuncs := d.msgFuncs) == d
  {
    if t in d.msgFuncs then Failure(DuplicateMessageType(t))
    else Success(d.(msgFuncs := d.msgFuncs[t := w]))
  }

  /** The message types the device advertises: the types of its table,
      connected or not. On a connected device these are exactly the types
      whose messages reach a handler rather than being refused as unsupported. */
  function GetAllowedMessageTypes(d: Device): (r: set<Core.MessageType>)
    ensures forall t :: t in r <==> t in d.msgFuncs
    ensures forall m: M.DeviceMessage :: IsConnected(d) && M.TypeOf(m) in r
              ==> M.TypeOf(m) in d.msgFuncs && ParseMessage(d, m) == d.msgFuncs[M.TypeOf(m)].handler(m)
    ensures forall m: M.DeviceMessage :: IsConnected(d) && M.TypeOf(m) !in r
              ==> ParseMessage(d, m) == DeviceError(m.header.id, UnsupportedText(d.name, M.TypeOf(m)))
  {
    d.msgFuncs.Keys
  }

  /** The attributes registered for `t`, or the defaults when `t` has no
      handler or its wrapper's attributes were set to null. Never fails. */
  function GetMessageAttrs(d: Device, t: Core.MessageType): (r: MessageAttributes)
    ensures t in d.msgFuncs && d.msgFuncs[t].attrs.Some? ==> r == d.msgFuncs[t].attrs.value
    ensures t in d.msgFuncs && d.msgFuncs[t].attrs.None? ==> r == DefaultAttributes
    ensures t !in d.msgFuncs ==> r == DefaultAttributes
  {
    if t in d.msgFuncs then d.msgFuncs[t].attrs.GetOr(DefaultAttributes)
    else DefaultAttributes
  }

  /** Registering a handler advertises exactly one more type, and the
      attributes then reported for it are those given to the wrapper
      constructor (or the defaults); other types are unaffected. */
  lemma RegistrationIsAdvertised(d: Device, t: Core.MessageType, h: Handler,
                                 attrs: Option<MessageAttributes>, u: Core.MessageType)
    requires t !in GetAllowedMessageTypes(d)
    ensures var d' := AddHandler(d, t, NewWrapper(h, attrs)).value;
      && GetAllowedMessageTypes(d') == GetAllowedMessageTypes(d) + {t}
      && GetMessageAttrs(d', t) == attrs.GetOr(DefaultAttributes)
      && (u != t ==> GetMessageAttrs(d', u) == GetMessageAttrs(d, u))
  {
  }

  /** `InvokeDeviceRemoved`: sets the flag and fires the event, on every call. */
  function InvokeDeviceRemoved(d: Device): (r: Device)
    ensures !IsConnected(r)
    ensures r.removedEvents == d.removedEvents + 1
    ensures r.(isDisconnected := d.isDisconnected, removedEvents := d.removedEvents) == d
  {
    d.(isDisconnected := true, removedEvents := d.removedEvents + 1)
  }

  // The two error texts after the device name; each is split after its
  // first word so that proofs can read the word that tells them apart.
  const DisconnectedSuffix := " has" + " disconnected and can no longer process messages."
  const UnsupportedInfix := " cannot" + " handle message of type "

  /** The text of the error for a device that has disconnected. */
  function DisconnectedText(name: string): string
  {
    name + DisconnectedSuffix
  }

  /** The text of the error for a message type without a handler. */
  function UnsupportedText(name: string, t: Core.MessageType): string
  {
    name + UnsupportedInfix + Core.TypeName(t)
  }

  /** What the logger's `LogErrorMsg` returns: a device-class error carrying
      the id of the request it answers. */
  function DeviceError(id: Core.uint32, text: string): (r: M.Message)
    ensures r.header.id == id && M.TypeOf(r) == Core.Error
    ensures r.body.errorClass == Some(M.ErrorDevice) && r.body.errorMessage == text
  {
    M.Message(Core.NewHeader(id), M.Error(text, Some(M.ErrorDevice)))
  }

  /** `ParseMessage`: a disconnected device refuses everything, whatever the
      type; a connected one refuses a type it has no handler for; otherwise the
      handler's answer is returned as it is. */
  function ParseMessage(d: Device, m: M.DeviceMessage): (r: M.Message)
    ensures d.isDisconnected ==> r == DeviceError(m.header.id, DisconnectedText(d.name))
    ensures !d.isDisconnected && M.TypeOf(m) !in d.msgFuncs
            ==> r == DeviceError(m.header.id, UnsupportedText(d.name, M.TypeOf(m)))
    ensures !d.isDisconnected && M.TypeOf(m) in d.msgFuncs ==> r == d.msgFuncs[M.TypeOf(m)].handler(m)
  {
    if d.isDisconnected then DeviceError(m.header.id, DisconnectedText(d.name))
    else if M.TypeOf(m) !in d.msgFuncs then DeviceError(m.header.id, UnsupportedText(d.name, M.TypeOf(m)))
    else d.msgFuncs[M.TypeOf(m)].handler(m)
  }

  /** The two refusals never share a text, so a disconnected device is never
      mistaken for one that lacks a handler. */
  lemma DisconnectedTextIsNotUnsupportedText(name: string, t: Core.MessageType)
    ensures DisconnectedText(name) != UnsupportedText(name, t)
  {
    var refused := UnsupportedInfix + Core.TypeName(t);
    assert UnsupportedText(name, t) == name + refused;
    assert DisconnectedSuffix[1] == 'h';
    assert (name + DisconnectedSuffix)[|name| + 1] == 'h';
    assert UnsupportedInfix[1] == 'c' && refused[1] == UnsupportedInfix[1];
    assert (name + refused)[|name| + 1] == 'c';
  }

  /** Reads the message type back out of an unsupported-type error text. */
  function UnsupportedTypeOf(name: string, text: string): Option<Core.MessageType>
  {
    var prefix := name + UnsupportedInfix;
    if |prefix| <= |text| && text[..|prefix|] == prefix then Core.TypeFromName(text[|prefix|..])
    else None
  }

  /** The unsupported-type error names the type of the refused message. */
  lemma UnsupportedErrorNamesType(d: Device, m: M.DeviceMessage)
    requires IsConnected(d) && M.TypeOf(m) !in GetAllowedMessageTypes(d)
    ensures ParseMessage(d, m).header.id == m.header.id
    ensures UnsupportedTypeOf(d.name, ParseMessage(d, m).body.errorMessage) == Some(M.TypeOf(m))
  {
    var prefix := d.name + UnsupportedInfix;
    var text := UnsupportedText(d.name, M.TypeOf(m));
    assert text[..|prefix|] == prefix;
    assert text[|prefix|..] == Core.TypeName(M.TypeOf(m));
    Core.TypeNameRoundTrip(M.TypeOf(m));
  }

  /** On a connected device an advertised type reaches its handler, and any
      other type is refused with an error that names it. */
  lemma AdvertisedTypesReachHandler(d: Device, m: M.DeviceMessage)
    requires IsConnected(d)
    ensures M.TypeOf(m) in GetAllowedMessageTypes(d) ==> ParseMessage(d, m) == d.msgFuncs[M.TypeOf(m)].handler(m)
    ensures M.TypeOf(m) !in GetAllowedMessageTypes(d) ==>
            UnsupportedTypeOf(d.name, ParseMessage(d, m).body.errorMessage) == Some(M.TypeOf(m))
  {
    if M.TypeOf(m) !in GetAllowedMessageTypes(d) {
      UnsupportedErrorNamesType(d, m);
    }
  }

  /** The default `Initialize`: an `Ok` stamped with the system id. */
  function Initialize(d: Device): (r: M.Message)
    ensures M.TypeOf(r) == Core.Ok && r.header.id == Core.SystemMsgId
    ensures Core.SatisfiesIdRule(r.header, M.TypeOf(r))
  {
    M.NewOk(Core.SystemMsgId)
  }

  // ---------------------------------------------------------------------
  // The handle's life: every public operation, in sequence

  datatype Operation =
    | SetIndex(newIndex: Core.uint32)
    | Dispatch(message: M.DeviceMessage)
    | Init
    | DeviceRemoved

  /** The device after one operation. Handlers are pure here, so dispatch
      leaves the device as it was. */
  function Apply(d: Device, op: Operation): Device
  {
    match op
    case SetIndex(i) => d.(index := i)
    case Dispatch(_) => d
    case Init => d
    case DeviceRemoved => InvokeDeviceRemoved(d)
  }

  /** The message an operation answers with, if any. */
  function Answer(d: Device, op: Operation): Option<M.Message>
  {
    match op
    case SetIndex(_) => None
    case Dispatch(m) => Some(ParseMessage(d, m))
    case Init => Some(Initialize(d))
    case DeviceRemoved => None
  }

  /** The device after a sequence of operations. */
  function Run(d: Device, ops: seq<Operation>): Device
    decreases |ops|
  {
    if |ops| == 0 then d else Run(Apply(d, ops[0]), ops[1..])
  }

  /** Whether the `k`-th operation of `ops` answers the dispatch of `m` with
      the disconnected error. */
  predicate RefusedAsDisconnected(d: Device, ops: seq<Operation>, k: nat)
    requires k < |ops| && ops[k].Dispatch?
  {
    Answer(Run(d, ops[..k]), ops[k]) == Some(DeviceError(ops[k].message.header.id, DisconnectedText(d.name)))
  }

  function CountRemovals(ops: seq<Operation>): nat
  {
    if |ops| == 0 then 0 else (if ops[0].DeviceRemoved? then 1 else 0) + CountRemovals(ops[1..])
  }

  /** Nothing after construction changes the name, the identifier or the
      handler table; the device ends disconnected exactly when it started so
      or some operation removed it; and the removed event has fired once per
      removal, not once in all. */
  lemma {:induction false} RunKeepsTableAndCountsRemovals(d: Device, ops: seq<Operation>)
    ensures Run(d, ops).name == d.name && Run(d, ops).identifier == d.identifier
    ensures Run(d, ops).msgFuncs == d.msgFuncs
    ensures GetAllowedMessageTypes(Run(d, ops)) == GetAllowedMessageTypes(d)
    ensures Run(d, ops).isDisconnected <==> d.isDisconnected || DeviceRemoved in ops
    ensures Run(d, ops).removedEvents == d.removedEvents + CountRemovals(ops)
    decreases |ops|
  {
    if |ops| > 0 {
      RunKeepsTableAndCountsRemovals(Apply(d, ops[0]), ops[1..]);
      assert DeviceRemoved in ops <==> ops[0] == DeviceRemoved || DeviceRemoved in ops[1..] by {
        assert ops == [ops[0]] + ops[1..];
      }
    }
  }

  /** Once disconnected, always disconnected: every later dispatch is refused
      with the disconnected error, whatever its type. */
  lemma {:induction false} DisconnectionIsPermanent(d: Device, ops: seq<Operation>, k: nat)
    requires d.isDisconnected
    requires k < |ops| && ops[k].Dispatch?
    ensures Run(d, ops).isDisconnected
    ensures RefusedAsDisconnected(d, ops, k)
  {
    RunKeepsTableAndCountsRemovals(d, ops);
    RunKeepsTableAndCountsRemovals(d, ops[..k]);
  }

  /** A removed device refuses even a type it has a handler for, and a
      removal on a device already removed fires the event again. */
  lemma RemovalScenario(d: Device, m: M.DeviceMessage)
    requires IsConnected(d) && d.removedEvents == 0 && M.TypeOf(m) in GetAllowedMessageTypes(d)
    ensures ParseMessage(d, m) == d.msgFuncs[M.TypeOf(m)].handler(m)
    ensures ParseMessage(InvokeDeviceRemoved(d), m) == DeviceError(m.header.id, DisconnectedText(d.name))
    ensures InvokeDeviceRemoved(InvokeDeviceRemoved(d)).removedEvents == 2
  {
  }
}
