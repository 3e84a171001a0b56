/** The Lovense Bluetooth adapter (Buttplug/Devices/Lovense.cs): its
    descriptor, the device it builds from a matched peripheral, and the
    translation of a vibrate command into the text written to the toy.
    Writes to the transport are recorded in an append-only log. */
module Lovense {
  import opened Wrappers
  import Core = MessageCore
  import M = Messages
  import D = Doubles
  import Decimal

  /** A Bluetooth UUID, in its textual form. */
  type Guid = string

  /** `IBluetoothDeviceInfo`: the services, advertised names and
      characteristics that identify a kind of device. */
  datatype BluetoothInfo = BluetoothInfo(services: seq<Guid>, names: seq<string>, characteristics: seq<Guid>)

  const ServiceId: Guid := "6e400001-b5a3-f393-e0a9-e50e24dcca9e"
  const TxCharacteristic: Guid := "6e400002-b5a3-f393-e0a9-e50e24dcca9e"
  const RxCharacteristic: Guid := "6e400003-b5a3-f393-e0a9-e50e24dcca9e"

  /** `LovenseBluetoothInfo`: the characteristics are listed tx first, then rx. */
  const Info := BluetoothInfo([ServiceId], ["LVS-S001", "LVS-Z001"], [TxCharacteristic, RxCharacteristic])

  /** The descriptor claims two advertised names, one service and two
      distinct characteristics, tx before rx. */
  lemma InfoShape()
    ensures (set n | n in Info.names) == {"LVS-S001", "LVS-Z001"}
    ensures |Info.services| == 1 && Info.services[0] == ServiceId
    ensures |Info.characteristics| == 2
    ensures Info.characteristics[0] == TxCharacteristic && Info.characteristics[1] == RxCharacteristic
    ensures TxCharacteristic != RxCharacteristic
  {
    assert TxCharacteristic[7] != RxCharacteristic[7];
  }

  /** A discovered peripheral, of which only its advertised name matters. */
  datatype Peripheral = Peripheral(name: string)

  /** A resolved GATT characteristic. */
  datatype Characteristic = Characteristic(uuid: Guid)

  datatype LovenseDevice = LovenseDevice(name: string, peripheral: Peripheral,
                                         writeChr: Characteristic, readChr: Characteristic)

  const NamePrefix := "Lovense Device ("

  /** Indexing a too-short characteristic array throws. */
  datatype CreateError = IndexOutOfRange

  /** `CreateDevice`: characteristic 0 becomes the write channel and
      characteristic 1 the read channel. */
  function CreateDevice(p: Peripheral, chrs: seq<Characteristic>): (r: Result<LovenseDevice, CreateError>)
    ensures r.Success? <==> |chrs| >= 2
    ensures r.Success? ==> r.value.writeChr == chrs[0] && r.value.readChr == chrs[1]
                           && r.value.peripheral == p
    ensures r.Failure? ==> r.error == IndexOutOfRange
  {
    if |chrs| < 2 then Failure(IndexOutOfRange)
    else Success(LovenseDevice(NamePrefix + p.name + ")", p, chrs[0], chrs[1]))
  }

  /** Reads the peripheral's name back out of a device name. */
  function PeripheralNameOf(deviceName: string): Option<string>
  {
    if |deviceName| > |NamePrefix| && deviceName[..|NamePrefix|] == NamePrefix
       && deviceName[|deviceName| - 1] == ')'
    then Some(deviceName[|NamePrefix|..|deviceName| - 1])
    else None
  }

  /** The device name wraps the peripheral's name, which can be read back. */
  lemma DeviceNameWrapsPeripheralName(p: Peripheral, chrs: seq<Characteristic>)
    requires |chrs| >= 2
    ensures PeripheralNameOf(CreateDevice(p, chrs).value.name) == Some(p.name)
  {
    var n := CreateDevice(p, chrs).value.name;
    assert n == NamePrefix + p.name + ")";
    assert n[..|NamePrefix|] == NamePrefix;
    assert n[|NamePrefix|..|n| - 1] == p.name;
  }

  /** When the transport resolves the characteristics in the order the
      descriptor lists them, the device writes to tx and reads from rx. */
  lemma WriteChannelIsTx(p: Peripheral, chrs: seq<Characteristic>)
    requires |chrs| == |Info.characteristics|
    requires forall i :: 0 <= i < |chrs| ==> chrs[i].uuid == Info.characteristics[i]
    ensures CreateDevice(p, chrs).Success?
    ensures CreateDevice(p, chrs).value.writeChr.uuid == TxCharacteristic
    ensures CreateDevice(p, chrs).value.readChr.uuid == RxCharacteristic
  {
  }

  /** C#'s `(int)` cast of a double: truncation toward zero, that is the
      whole number of the same sign whose magnitude is within 1 below |x|. */
  function Truncate(x: real): (n: int)
    ensures x >= 0.0 ==> 0 <= n && n as real <= x < n as real + 1.0
    ensures x < 0.0 ==> n <= 0 && n as real - 1.0 < x <= n as real
  {
    if x >= 0.0 then x.Floor else -((-x).Floor)
  }

  /** The device's native vibration level for a speed: `(int)(speed * 20)`,
      that is, for a non-negative speed, its whole number of 1/20 steps. */
  function WireValue(speed: real): (r: int)
    ensures speed >= 0.0 ==> 0 <= r && r as real <= speed * 20.0 < r as real + 1.0
    ensures speed < 0.0 ==> r <= 0
  {
    Truncate(speed * 20.0)
  }

  /** For a non-negative speed the level counts the steps of 1/20 it reaches:
      step `k` is reached exactly when `k` is at most the level. */
  lemma WireValueIsWholeSteps(speed: real, k: int)
    requires speed >= 0.0
    ensures k as real / 20.0 <= speed <==> k <= WireValue(speed)
  {
  }

  /** A speed in [0, 1] maps into 0..20, faster never to a lower level. */
  lemma WireValueBoundedAndMonotone(a: real, b: real)
    requires 0.0 <= a <= b <= 1.0
    ensures 0 <= WireValue(a) <= WireValue(b) <= 20
  {
  }

  lemma WireValueExamples()
    ensures WireValue(0.0) == 0 && WireValue(0.5) == 10 && WireValue(1.0) == 20
  {
    assert 0.5 * 20.0 == 10.0;
  }

  /** The text written for a vibration level. */
  function VibrateCommand(level: int): string
  {
    "Vibrate:" + Decimal.IntToString(level) + ";"
  }

  const CommandPrefix := "Vibrate:"

  /** Reads the level back out of a written command. */
  function ParseVibrateCommand(s: string): Option<int>
  {
    if |s| > |CommandPrefix| && s[..|CommandPrefix|] == CommandPrefix && s[|s| - 1] == ';'
    then Decimal.ParseInt(s[|CommandPrefix|..|s| - 1])
    else None
  }

  /** Every command written can be read back to the level it encodes. */
  lemma VibrateCommandRoundTrip(level: int)
    ensures ParseVibrateCommand(VibrateCommand(level)) == Some(level)
  {
    var s := VibrateCommand(level);
    var digits := Decimal.IntToString(level);
    assert |digits| > 0 by {
      if level < 0 { } else { }
    }
    assert s[..|CommandPrefix|] == CommandPrefix;
    assert s[|CommandPrefix|..|s| - 1] == digits;
    Decimal.IntRoundTrip(level);
  }

  /** One write to the transport. */
  datatype Write = Write(chr: Characteristic, payload: string)

  /** Whether the message was handled, and the write log afterwards. */
  datatype Handled = Handled(handled: bool, log: seq<Write>)

  /** `Lovense.ParseMessage`: a vibrate command becomes one write to the
      write channel and is reported handled; any other message writes nothing
      and is reported unhandled. */
  function ParseMessage(dev: LovenseDevice, msg: M.DeviceMessage, log: seq<Write>): (r: Handled)
    ensures r.handled <==> msg.body.SingleMotorVibrateCmd?
    ensures r.handled ==> r.log == log + [Write(dev.writeChr, VibrateCommand(WireValue(msg.body.vibrateSpeed)))]
    ensures !r.handled ==> r.log == log
  {
    match msg.body
    case SingleMotorVibrateCmd(_, speed) =>
      Handled(true, log + [Write(dev.writeChr, VibrateCommand(WireValue(speed)))])
    case _ => Handled(false, log)
  }

  /** A valid vibrate command appends exactly one write, to the tx side,
      whose text reads back as the level for its speed, a level in 0..20. */
  lemma VibrateWritesItsLevel(dev: LovenseDevice, msg: M.DeviceMessage, log: seq<Write>)
    requires msg.body.SingleMotorVibrateCmd? && M.Valid(msg)
    ensures var r := ParseMessage(dev, msg, log);
      && r.handled
      && |r.log| == |log| + 1 && r.log[..|log|] == log
      && r.log[|log|].chr == dev.writeChr
      && ParseVibrateCommand(r.log[|log|].payload) == Some(WireValue(msg.body.vibrateSpeed))
      && 0 <= WireValue(msg.body.vibrateSpeed) <= 20
  {
    var r := ParseMessage(dev, msg, log);
    assert r.log[..|log|] == log;
    VibrateCommandRoundTrip(WireValue(msg.body.vibrateSpeed));
    WireValueBoundedAndMonotone(msg.body.vibrateSpeed, 1.0);
  }

  /** Half speed, built through the validating constructor, is written as
      level 10. */
  lemma HalfSpeedScenario(dev: LovenseDevice, index: Core.uint32, log: seq<Write>)
    ensures M.NewSingleMotorVibrateCmd(index, D.Finite(0.5)).Success?
    ensures ParseMessage(dev, M.NewSingleMotorVibrateCmd(index, D.Finite(0.5)).value, log)
            == Handled(true, log + [Write(dev.writeChr, "Vibrate:10;")])
  {
    WireValueExamples();
    var m := M.NewSingleMotorVibrateCmd(index, D.Finite(0.5)).value;
    assert m.body.vibrateSpeed == 0.5;
    assert Decimal.NatToString(10) == "10" by {
      assert Decimal.NatToString(1) == "1";
    }
    assert Decimal.IntToString(10) == "10";
    assert VibrateCommand(10) == "Vibrate:10;";
  }
}
