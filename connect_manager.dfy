/**
 * `BleConnectManager`: the GATT client side of the connection to the
 * peripheral. It holds a nullable GATT handle and two nullable
 * characteristics, opens and closes the handle, reacts to the platform's
 * connection-state and service-discovery callbacks, and writes the time and
 * servo payloads.
 *
 * Platform calls (`connectGatt`, `disconnect`, `discoverServices`, `close`,
 * `writeCharacteristic`) and listener calls are recorded, in order, in an
 * event log; permission checks are boolean parameters; what `connectGatt`
 * returns and what service discovery finds are inputs.
 */
module BleConnect {
  import opened Wrappers
  import opened Uuids
  import opened Payloads

  /** A remote device (`BluetoothDevice`), as the platform identifies it. */
  type DeviceId = nat

  /** A GATT client handle (`BluetoothGatt`), as `connectGatt` returns it. */
  type GattId = nat

  // Platform constants (`BluetoothProfile`, `BluetoothGatt`, `BluetoothGattCharacteristic`).
  const STATE_DISCONNECTED: int := 0
  const STATE_CONNECTED: int := 2
  const GATT_SUCCESS: int := 0
  const WRITE_TYPE_DEFAULT: int := 2

  // The messages handed to `onConnectFailed`.
  const DeviceNullMessage: string := "Device is null."
  const ConnectPermissionMessage: string := "Bluetooth Connect permission not granted."
  const StateChangePermissionMessage: string := "Permissions missing for state change."

  /** A GATT characteristic: its UUID is fixed, its value and write type are set in place. */
  class Characteristic {
    const uuid: Uuid
    var value: string
    var writeType: int

    constructor (uuid: Uuid)
      ensures this.uuid == uuid && value == [] && writeType == WRITE_TYPE_DEFAULT
    {
      this.uuid := uuid;
      value := [];
      writeType := WRITE_TYPE_DEFAULT;
    }

    /** `setValue(value)`: stores the value to be written; the write type stays. */
    method SetValue(value: string)
      modifies this
      ensures this.value == value && writeType == old(writeType)
    {
      this.value := value;
    }

    /** `setWriteType(writeType)`: the value stays. */
    method SetWriteType(writeType: int)
      modifies this
      ensures this.writeType == writeType && value == old(value)
    {
      this.writeType := writeType;
    }
  }

  /** A GATT service of the remote device, as service discovery reports it. */
  datatype Service = Service(uuid: Uuid, characteristics: seq<Characteristic>)

  /** What the manager does, in order: listener calls and platform calls. */
  datatype Event =
    // listener calls
    | ConnectFailed(message: string)
    | DeviceConnected(device: Option<DeviceId>)
    | DeviceDisconnected
    | TimeSynced
    // platform calls
    | ConnectGatt(target: DeviceId)
    | GattDisconnect(gatt: GattId)
    | DiscoverServices(gatt: GattId)
    | GattClose(gatt: GattId)
    | WriteCharacteristic(gatt: GattId, characteristic: Uuid, payload: string)

  predicate IsListenerCall(e: Event) {
    e.ConnectFailed? || e.DeviceConnected? || e.DeviceDisconnected? || e.TimeSynced?
  }

  /** The listener calls of a log, in order. */
  function ListenerCalls(log: seq<Event>): (calls: seq<Event>)
    ensures |calls| <= |log|
    ensures forall i :: 0 <= i < |calls| ==> IsListenerCall(calls[i])
  {
    if log == [] then []
    else ListenerCalls(log[..|log| - 1]) + (if IsListenerCall(log[|log| - 1]) then [log[|log| - 1]] else [])
  }

  // ---------------------------------------------------------------------------
  // Lookups done by the platform during service discovery

  /** `BluetoothGatt.getService`: the first service with the UUID; `None` for null. */
  function GetService(services: seq<Service>, uuid: Uuid): (r: Option<Service>)
    ensures r.None? <==> forall i :: 0 <= i < |services| ==> services[i].uuid != uuid
    ensures r.Some? ==> exists i :: 0 <= i < |services| && services[i] == r.value && r.value.uuid == uuid
                                    && forall j :: 0 <= j < i ==> services[j].uuid != uuid
  {
    if services == [] then None
    else if services[0].uuid == uuid then Some(services[0])
    else
      var r := GetService(services[1..], uuid);
      assert forall i :: 1 <= i < |services| ==> services[i] == services[1..][i - 1];
      r
  }

  /** `BluetoothGattService.getCharacteristic`: the first characteristic with the UUID, or null. */
  function GetCharacteristic(characteristics: seq<Characteristic>, uuid: Uuid): (r: Characteristic?)
    ensures r == null <==> forall i :: 0 <= i < |characteristics| ==> characteristics[i].uuid != uuid
    ensures r != null ==> exists i :: 0 <= i < |characteristics| && characteristics[i] == r && r.uuid == uuid
                                      && forall j :: 0 <= j < i ==> characteristics[j].uuid != uuid
  {
    if characteristics == [] then null
    else if characteristics[0].uuid == uuid then characteristics[0]
    else
      var r := GetCharacteristic(characteristics[1..], uuid);
      assert forall i :: 1 <= i < |characteristics| ==> characteristics[i] == characteristics[1..][i - 1];
      r
  }

  /** Whether the device offers a service with this UUID. */
  predicate OffersService(services: seq<Service>, uuid: Uuid) {
    exists i :: 0 <= i < |services| && services[i].uuid == uuid
  }

  /** The characteristic a service list offers for a (service, characteristic) pair, or null. */
  function Lookup(services: seq<Service>, service: Uuid, characteristic: Uuid): (r: Characteristic?)
    ensures r != null ==> r.uuid == characteristic
  {
    match GetService(services, service)
    case None => null
    case Some(s) => GetCharacteristic(s.characteristics, characteristic)
  }

  // ---------------------------------------------------------------------------
  // The manager's state, and one step per operation or callback

  /** The manager's fields (the device never changes) and its event log so far. */
  datatype Link = Link(
    device: Option<DeviceId>,
    gatt: Option<GattId>,
    phoneTime: Characteristic?,
    servoSignal: Characteristic?,
    log: seq<Event>)

  /** A write the manager can have made: a servo signal or a time of day, to the matching characteristic. */
  predicate IsWellFormedWrite(e: Event)
    requires e.WriteCharacteristic?
  {
    || (e.characteristic == CharacteristicServoSignal && ServoCommandOf(e.payload).Some?)
    || (e.characteristic == CharacteristicPhoneTime && ParseTime(e.payload).Some?)
  }

  predicate WritesWellFormed(log: seq<Event>) {
    forall i :: 0 <= i < |log| && log[i].WriteCharacteristic? ==> IsWellFormedWrite(log[i])
  }

  /**
   * The invariant every step keeps: each characteristic field is null or has
   * the UUID it was looked up by, and every write made so far carries a servo
   * payload (one `ServoPayload` produces) to the servo-signal characteristic or
   * an `HH:mm:ss` time (one `ParseTime` reads) to the phone-time characteristic.
   */
  predicate Inv(s: Link) {
    && (s.phoneTime != null ==> s.phoneTime.uuid == CharacteristicPhoneTime)
    && (s.servoSignal != null ==> s.servoSignal.uuid == CharacteristicServoSignal)
    && WritesWellFormed(s.log)
  }

  function Emit(s: Link, events: seq<Event>): (r: Link)
    ensures r.log == s.log + events
    ensures r.(log := s.log) == s
  {
    s.(log := s.log + events)
  }

  /** `connect()`. */
  function ConnectStep(s: Link, granted: bool, returned: Option<GattId>): (r: Link)
    ensures Inv(s) ==> Inv(r)
  {
    if s.device.None? then Emit(s, [ConnectFailed(DeviceNullMessage)])
    else if !granted then Emit(s, [ConnectFailed(ConnectPermissionMessage)])
    else Emit(s.(gatt := returned), [ConnectGatt(s.device.value)])
  }

  /** `disconnect()`: asks the platform to disconnect; the handle itself stays until the callback closes it. */
  function DisconnectStep(s: Link, granted: bool): (r: Link)
    ensures Inv(s) ==> Inv(r)
  {
    if s.gatt.None? || !granted then s
    else Emit(s, [GattDisconnect(s.gatt.value)])
  }

  /** `close()`. */
  function CloseStep(s: Link, granted: bool): (r: Link)
    ensures Inv(s) ==> Inv(r)
  {
    if s.gatt.None? || !granted then s
    else Emit(s.(gatt := None), [GattClose(s.gatt.value)])
  }

  /** `onConnectionStateChange(gatt, status, newState)`; `status` is not consulted. */
  function StateChangeStep(s: Link, granted: bool, gatt: GattId, newState: int): (r: Link)
    ensures Inv(s) ==> Inv(r)
  {
    if !granted then Emit(s, [ConnectFailed(StateChangePermissionMessage)])
    else if newState == STATE_CONNECTED then Emit(s, [DiscoverServices(gatt)])
    else if newState == STATE_DISCONNECTED then CloseStep(Emit(s, [DeviceDisconnected]), granted)
    else s
  }

  /**
   * The characteristic field after discovery: a missing service leaves the old
   * value, otherwise the field becomes the service's characteristic, or null
   * when the service lacks it.
   */
  function Rediscover(services: seq<Service>, service: Uuid, characteristic: Uuid, old_: Characteristic?): (r: Characteristic?)
    ensures !OffersService(services, service) ==> r == old_
    ensures OffersService(services, service) ==> r == Lookup(services, service, characteristic)
    ensures r != null ==> r == old_ || r.uuid == characteristic
  {
    match GetService(services, service)
    case None => old_
    case Some(svc) => GetCharacteristic(svc.characteristics, characteristic)
  }

  /** `onServicesDiscovered(gatt, status)`, `services` being what the platform discovered. */
  function ServicesDiscoveredStep(s: Link, status: int, services: seq<Service>): (r: Link)
    ensures Inv(s) ==> Inv(r)
  {
    var found :=
      if status == GATT_SUCCESS then
        s.(servoSignal := Rediscover(services, ServiceServoControl, CharacteristicServoSignal, s.servoSignal),
           phoneTime := Rediscover(services, ServiceTimeSync, CharacteristicPhoneTime, s.phoneTime))
      else s;
    if found.phoneTime != null && found.servoSignal != null then Emit(found, [DeviceConnected(s.device)])
    else found
  }

  /** `onCharacteristicWrite(gatt, characteristic, status)`. */
  function CharacteristicWriteStep(s: Link, status: int, characteristic: Uuid): (r: Link)
    ensures Inv(s) ==> Inv(r)
  {
    if status == GATT_SUCCESS && characteristic == CharacteristicPhoneTime then Emit(s, [TimeSynced])
    else s
  }

  /** Whether `writeCurrentTime` gets past its guards. */
  predicate WritesTime(s: Link, granted: bool) {
    s.phoneTime != null && s.gatt.Some? && granted
  }

  /** `writeCurrentTime()`, the clock reading being an input. */
  function WriteTimeStep(s: Link, granted: bool, now: Clock): (r: Link)
    requires IsClock(now)
    ensures Inv(s) ==> Inv(r)
  {
    if !WritesTime(s, granted) then s
    else
      Emit(s, [WriteCharacteristic(s.gatt.value, s.phoneTime.uuid, TimeText(now))])
  }

  /** Whether `sendServoCommand(command)` gets past its guards and writes. */
  predicate WritesServo(s: Link, granted: bool, command: string) {
    s.servoSignal != null && s.gatt.Some? && granted && ServoPayload(command).Some?
  }

  /** `sendServoCommand(command)`. */
  function SendServoStep(s: Link, granted: bool, command: string): (r: Link)
    ensures Inv(s) ==> Inv(r)
  {
    if !WritesServo(s, granted, command) then s
    else
      Emit(s, [WriteCharacteristic(s.gatt.value, s.servoSignal.uuid, ServoPayload(command).value)])
  }

  // ---------------------------------------------------------------------------
  // Properties of the steps

  lemma {:induction false} ListenerCallsAppend(a: seq<Event>, b: seq<Event>)
    ensures ListenerCalls(a + b) == ListenerCalls(a) + ListenerCalls(b)
  {
    if b != [] {
      var c := b[..|b| - 1];
      assert (a + b)[..|a + b| - 1] == a + c;
      ListenerCallsAppend(a, c);
    } else {
      assert a + b == a;
    }
  }

  lemma ListenerCallsOne(e: Event)
    ensures ListenerCalls([e]) == if IsListenerCall(e) then [e] else []
  {
    assert [e][..0] == [];
  }

  /** Appending events adds their listener calls, and no others. */
  lemma ListenerCallsEmit(s: Link, events: seq<Event>)
    ensures ListenerCalls(Emit(s, events).log) == ListenerCalls(s.log) + ListenerCalls(events)
  {
    ListenerCallsAppend(s.log, events);
  }

  /**
   * `connect` with no device, or without permission, reports exactly one
   * `onConnectFailed`, makes no platform call, and leaves the handle as it was.
   */
  lemma ConnectFailure(s: Link, granted: bool, returned: Option<GattId>)
    requires s.device.None? || !granted
    ensures var r := ConnectStep(s, granted, returned);
      && r.(log := s.log) == s
      && r.log == s.log + [ConnectFailed(if s.device.None? then DeviceNullMessage else ConnectPermissionMessage)]
      && ListenerCalls(r.log) == ListenerCalls(s.log) + [r.log[|s.log|]]
  {
    var e := ConnectFailed(if s.device.None? then DeviceNullMessage else ConnectPermissionMessage);
    ListenerCallsEmit(s, [e]);
    ListenerCallsOne(e);
  }

  /** Otherwise `connect` makes one `connectGatt` call, no listener call, and keeps the handle it returns. */
  lemma ConnectSuccess(s: Link, returned: Option<GattId>)
    requires s.device.Some?
    ensures var r := ConnectStep(s, true, returned);
      && r.(log := s.log) == s.(gatt := returned)
      && r.log == s.log + [ConnectGatt(s.device.value)]
      && ListenerCalls(r.log) == ListenerCalls(s.log)
  {
    ListenerCallsEmit(s.(gatt := returned), [ConnectGatt(s.device.value)]);
    ListenerCallsOne(ConnectGatt(s.device.value));
  }

  /**
   * `disconnect` changes no field and never calls the listener; with no handle
   * or without permission it does nothing; otherwise its one effect is the
   * platform `disconnect` on the handle.
   */
  lemma DisconnectKeepsHandle(s: Link, granted: bool)
    ensures DisconnectStep(s, granted).(log := s.log) == s
    ensures !granted ==> DisconnectStep(s, granted) == s
    ensures s.gatt.Some? && granted ==> DisconnectStep(s, granted).log == s.log + [GattDisconnect(s.gatt.value)]
    ensures ListenerCalls(DisconnectStep(s, granted).log) == ListenerCalls(s.log)
    ensures s.gatt.None? ==> DisconnectStep(s, granted) == s
  {
    if s.gatt.Some? && granted {
      ListenerCallsEmit(s, [GattDisconnect(s.gatt.value)]);
      ListenerCallsOne(GattDisconnect(s.gatt.value));
    }
  }

  /**
   * `close` with permission closes the handle and forgets it, keeping the
   * device and both characteristics; without permission, or with no handle,
   * it changes nothing; so a second `close` changes nothing.
   */
  lemma CloseIdempotent(s: Link, granted: bool)
    ensures granted ==> CloseStep(s, granted).gatt.None?
    ensures granted && s.gatt.Some? ==> CloseStep(s, granted).log == s.log + [GattClose(s.gatt.value)]
    ensures CloseStep(s, granted).(gatt := s.gatt, log := s.log) == s
    ensures !granted || s.gatt.None? ==> CloseStep(s, granted) == s
    ensures CloseStep(CloseStep(s, granted), granted) == CloseStep(s, granted)
  {
  }

  /** With permission, DISCONNECTED is `onDeviceDisconnected` followed by `close()`. */
  lemma DisconnectedThenClose(s: Link, gatt: GattId)
    ensures var s1 := Emit(s, [DeviceDisconnected]);
      && StateChangeStep(s, true, gatt, STATE_DISCONNECTED) == CloseStep(s1, true)
      && (s.gatt.None? ==> CloseStep(s1, true) == s1)
      && (s.gatt.Some? ==> CloseStep(s1, true) == Emit(s1.(gatt := None), [GattClose(s.gatt.value)]))
  {
  }

  /**
   * A DISCONNECTED state change (with permission) first reports
   * `onDeviceDisconnected`, then closes the handle if there is one; afterwards
   * there is no handle, and the device and both characteristics are kept.
   */
  lemma DisconnectedCallbackOrder(s: Link, gatt: GattId)
    ensures StateChangeStep(s, true, gatt, STATE_DISCONNECTED).gatt.None?
    ensures StateChangeStep(s, true, gatt, STATE_DISCONNECTED).(gatt := s.gatt, log := s.log) == s
    ensures StateChangeStep(s, true, gatt, STATE_DISCONNECTED).log
            == s.log + [DeviceDisconnected] + (if s.gatt.Some? then [GattClose(s.gatt.value)] else [])
    ensures ListenerCalls(StateChangeStep(s, true, gatt, STATE_DISCONNECTED).log)
            == ListenerCalls(s.log) + [DeviceDisconnected]
  {
    var s1 := Emit(s, [DeviceDisconnected]);
    DisconnectedThenClose(s, gatt);
    ListenerCallsEmit(s, [DeviceDisconnected]);
    ListenerCallsOne(DeviceDisconnected);
    if s.gatt.Some? {
      ListenerCallsEmit(s1.(gatt := None), [GattClose(s.gatt.value)]);
      ListenerCallsOne(GattClose(s.gatt.value));
    }
  }

  /** A CONNECTED state change (with permission) only starts service discovery on the callback's handle. */
  lemma ConnectedCallbackOnlyDiscovers(s: Link, gatt: GattId)
    ensures var r := StateChangeStep(s, true, gatt, STATE_CONNECTED);
      && r.(log := s.log) == s
      && r.log == s.log + [DiscoverServices(gatt)]
      && ListenerCalls(r.log) == ListenerCalls(s.log)
  {
    ListenerCallsEmit(s, [DiscoverServices(gatt)]);
    ListenerCallsOne(DiscoverServices(gatt));
  }

  /** Without permission, any state change reports one `onConnectFailed` and changes nothing else. */
  lemma StateChangeWithoutPermission(s: Link, gatt: GattId, newState: int)
    ensures var r := StateChangeStep(s, false, gatt, newState);
      && r.(log := s.log) == s
      && r.log == s.log + [ConnectFailed(StateChangePermissionMessage)]
      && ListenerCalls(r.log) == ListenerCalls(s.log) + [ConnectFailed(StateChangePermissionMessage)]
  {
    ListenerCallsEmit(s, [ConnectFailed(StateChangePermissionMessage)]);
    ListenerCallsOne(ConnectFailed(StateChangePermissionMessage));
  }

  /**
   * The readiness gate: after service discovery `onDeviceConnected` is called
   * (once) if and only if both characteristics are known, and nothing else is
   * reported.
   */
  lemma ReadinessGate(s: Link, status: int, services: seq<Service>)
    ensures var r := ServicesDiscoveredStep(s, status, services);
      && r.device == s.device && r.gatt == s.gatt
      && (r.phoneTime != null && r.servoSignal != null <==> r.log == s.log + [DeviceConnected(s.device)])
      && (r.phoneTime == null || r.servoSignal == null <==> r.log == s.log)
  {
  }

  /**
   * A successful discovery sets each characteristic field separately: a field
   * whose service the device does not offer keeps its old value, even one
   * from an earlier discovery; otherwise the field becomes the service's
   * characteristic, or null when the service lacks it.
   */
  lemma DiscoveryUpdatesFields(s: Link, services: seq<Service>)
    ensures var r := ServicesDiscoveredStep(s, GATT_SUCCESS, services);
      && (!OffersService(services, ServiceServoControl) ==> r.servoSignal == s.servoSignal)
      && (OffersService(services, ServiceServoControl) ==>
            r.servoSignal == Lookup(services, ServiceServoControl, CharacteristicServoSignal))
      && (!OffersService(services, ServiceTimeSync) ==> r.phoneTime == s.phoneTime)
      && (OffersService(services, ServiceTimeSync) ==>
            r.phoneTime == Lookup(services, ServiceTimeSync, CharacteristicPhoneTime))
  {
  }

  /**
   * A servo-signal characteristic from an earlier discovery survives a
   * discovery that finds no servo-control service, and with the time
   * characteristic found the device is reported connected.
   */
  lemma StaleServoSignalPassesGate(s: Link, services: seq<Service>)
    requires s.servoSignal != null
    requires !OffersService(services, ServiceServoControl)
    requires Lookup(services, ServiceTimeSync, CharacteristicPhoneTime) != null
    ensures var r := ServicesDiscoveredStep(s, GATT_SUCCESS, services);
      && r.servoSignal == s.servoSignal
      && r.log == s.log + [DeviceConnected(s.device)]
  {
  }

  /** A failed discovery keeps both characteristic fields as they were. */
  lemma FailedDiscoveryKeepsCharacteristics(s: Link, status: int, services: seq<Service>)
    requires status != GATT_SUCCESS
    ensures ServicesDiscoveredStep(s, status, services).phoneTime == s.phoneTime
    ensures ServicesDiscoveredStep(s, status, services).servoSignal == s.servoSignal
  {
  }

  /**
   * On a manager that has found nothing yet, a successful discovery reports the
   * device connected exactly when the device offers both characteristics
   * under their services.
   */
  lemma FreshDiscoveryReady(s: Link, services: seq<Service>)
    requires s.phoneTime == null && s.servoSignal == null
    ensures var r := ServicesDiscoveredStep(s, GATT_SUCCESS, services);
      && r.phoneTime == Lookup(services, ServiceTimeSync, CharacteristicPhoneTime)
      && r.servoSignal == Lookup(services, ServiceServoControl, CharacteristicServoSignal)
      && (r.log == s.log + [DeviceConnected(s.device)] <==>
            Lookup(services, ServiceTimeSync, CharacteristicPhoneTime) != null
            && Lookup(services, ServiceServoControl, CharacteristicServoSignal) != null)
  {
  }

  /**
   * `sendServoCommand` writes exactly when the characteristic and the handle
   * are known, permission is granted and the command is `"on"` or `"off"`; it
   * then writes `"1"` or `"0"` to the servo-signal characteristic, and nothing
   * else happens.
   */
  lemma ServoCommandOutcome(s: Link, granted: bool, command: string)
    requires Inv(s)
    ensures var r := SendServoStep(s, granted, command);
      && r.(log := s.log) == s
      && (WritesServo(s, granted, command) <==>
            s.servoSignal != null && s.gatt.Some? && granted && (command == "on" || command == "off"))
      && (command == "on" && WritesServo(s, granted, command) ==>
            r.log == s.log + [WriteCharacteristic(s.gatt.value, CharacteristicServoSignal, "1")])
      && (command == "off" && WritesServo(s, granted, command) ==>
            r.log == s.log + [WriteCharacteristic(s.gatt.value, CharacteristicServoSignal, "0")])
      && (!WritesServo(s, granted, command) ==> r == s)
  {
  }

  /** `writeCurrentTime` writes `HH:mm:ss` of the clock reading to the phone-time characteristic, or nothing. */
  lemma TimeWriteOutcome(s: Link, granted: bool, now: Clock)
    requires Inv(s) && IsClock(now)
    ensures var r := WriteTimeStep(s, granted, now);
      && r.(log := s.log) == s
      && (WritesTime(s, granted) ==>
            && r.log == s.log + [WriteCharacteristic(s.gatt.value, CharacteristicPhoneTime, TimeText(now))]
            && IsTimeShape(TimeText(now)) && ParseTime(TimeText(now)) == Some(now))
      && (!WritesTime(s, granted) ==> r == s)
  {
  }

  /** Only a successful write to the phone-time characteristic is reported as `onTimeSynced`. */
  lemma TimeSyncedOnlyForPhoneTime(s: Link, status: int, characteristic: Uuid)
    ensures var r := CharacteristicWriteStep(s, status, characteristic);
      && r.(log := s.log) == s
      && (r.log == s.log + [TimeSynced] <==> status == GATT_SUCCESS && characteristic == CharacteristicPhoneTime)
      && (r.log == s.log <==> !(status == GATT_SUCCESS && characteristic == CharacteristicPhoneTime))
  {
  }

  /**
   * The handle's lifecycle: a new manager for a device has no handle; a
   * permitted `connect` sets it to what `connectGatt` returned; the
   * DISCONNECTED callback clears it again, after reporting the disconnection.
   */
  lemma GattLifecycle(device: DeviceId, handle: GattId)
    ensures var s0 := Link(Some(device), None, null, null, []);
      var s1 := ConnectStep(s0, true, Some(handle));
      var s2 := StateChangeStep(s1, true, handle, STATE_DISCONNECTED);
      && s1.gatt == Some(handle)
      && s2.gatt.None?
      && s2.log == [ConnectGatt(device), DeviceDisconnected, GattClose(handle)]
      && ListenerCalls(s2.log) == [DeviceDisconnected]
  {
    var s0 := Link(Some(device), None, null, null, []);
    var s1 := ConnectStep(s0, true, Some(handle));
    ConnectSuccess(s0, Some(handle));
    DisconnectedCallbackOrder(s1, handle);
    ListenerCallsOne(ConnectGatt(device));
  }

  // ---------------------------------------------------------------------------
  // The manager object

  class BleConnectManager {
    const device: Option<DeviceId>
    var bluetoothGatt: Option<GattId>
    var phoneTimeCharacteristic: Characteristic?
    var servoSignalCharacteristic: Characteristic?
    /** Listener and platform calls made so far, oldest first. */
    ghost var log: seq<Event>

    ghost function State(): Link
      reads this
    {
      Link(device, bluetoothGatt, phoneTimeCharacteristic, servoSignalCharacteristic, log)
    }

    ghost predicate Valid()
      reads this
    {
      Inv(State())
    }

    constructor (device: Option<DeviceId>)
      ensures Valid()
      ensures State() == Link(device, None, null, null, [])
    {
      this.device := device;
      bluetoothGatt := None;
      phoneTimeCharacteristic := null;
      servoSignalCharacteristic := null;
      log := [];
    }

    /** `connect()`; `returned` is what the platform's `connectGatt` hands back. */
    method Connect(granted: bool, returned: Option<GattId>)
      requires Valid()
      modifies this
      ensures Valid()
      ensures State() == ConnectStep(old(State()), granted, returned)
    {
      if device.None? {
        log := log + [ConnectFailed(DeviceNullMessage)];
        return;
      }
      if !granted {
        log := log + [ConnectFailed(ConnectPermissionMessage)];
        return;
      }
      log := log + [ConnectGatt(device.value)];
      bluetoothGatt := returned;
    }

    /** `disconnect()`. */
    method Disconnect(granted: bool)
      requires Valid()
      modifies this
      ensures Valid()
      ensures State() == DisconnectStep(old(State()), granted)
    {
      if bluetoothGatt.None? {
        return;
      }
      if !granted {
        return;
      }
      log := log + [GattDisconnect(bluetoothGatt.value)];
    }

    /** `close()`. */
    method Close(granted: bool)
      requires Valid()
      modifies this
      ensures Valid()
      ensures State() == CloseStep(old(State()), granted)
    {
      if bluetoothGatt.None? {
        return;
      }
      if !granted {
        return;
      }
      log := log + [GattClose(bluetoothGatt.value)];
      bluetoothGatt := None;
    }

    /** The platform's `onConnectionStateChange(gatt, status, newState)`. */
    method OnConnectionStateChange(granted: bool, gatt: GattId, newState: int)
      requires Valid()
      modifies this
      ensures Valid()
      ensures State() == StateChangeStep(old(State()), granted, gatt, newState)
    {
      if !granted {
        log := log + [ConnectFailed(StateChangePermissionMessage)];
        return;
      }
      if newState == STATE_CONNECTED {
        log := log + [DiscoverServices(gatt)];
      } else if newState == STATE_DISCONNECTED {
        log := log + [DeviceDisconnected];
        Close(granted);
      }
    }

    /** The platform's `onServicesDiscovered(gatt, status)`; `services` is what `gatt` then offers. */
    method OnServicesDiscovered(status: int, services: seq<Service>)
      requires Valid()
      modifies this
      ensures Valid()
      ensures State() == ServicesDiscoveredStep(old(State()), status, services)
    {
      if status == GATT_SUCCESS {
        var servoService := GetService(services, ServiceServoControl);
        if servoService.Some? {
          servoSignalCharacteristic := GetCharacteristic(servoService.value.characteristics, CharacteristicServoSignal);
        }
        var timeService := GetService(services, ServiceTimeSync);
        if timeService.Some? {
          phoneTimeCharacteristic := GetCharacteristic(timeService.value.characteristics, CharacteristicPhoneTime);
        }
      }
      if phoneTimeCharacteristic != null && servoSignalCharacteristic != null {
        log := log + [DeviceConnected(device)];
      }
    }

    /** The platform's `onCharacteristicWrite(gatt, characteristic, status)`. */
    method OnCharacteristicWrite(status: int, characteristic: Uuid)
      requires Valid()
      modifies this
      ensures Valid()
      ensures State() == CharacteristicWriteStep(old(State()), status, characteristic)
    {
      if status == GATT_SUCCESS && characteristic == CharacteristicPhoneTime {
        log := log + [TimeSynced];
      }
    }

    /** `writeCurrentTime()`; `now` is the wall-clock reading. */
    method WriteCurrentTime(granted: bool, now: Clock)
      requires Valid() && IsClock(now)
      modifies this, phoneTimeCharacteristic
      ensures Valid()
      ensures State() == WriteTimeStep(old(State()), granted, now)
      ensures WritesTime(old(State()), granted) ==>
        phoneTimeCharacteristic.value == TimeText(now) && phoneTimeCharacteristic.writeType == WRITE_TYPE_DEFAULT
      ensures !WritesTime(old(State()), granted) && phoneTimeCharacteristic != null ==>
        unchanged(phoneTimeCharacteristic)
      ensures servoSignalCharacteristic != null ==> unchanged(servoSignalCharacteristic)
    {
      if phoneTimeCharacteristic == null || bluetoothGatt.None? {
        return;
      }
      if !granted {
        return;
      }
      var currentTime := TimeText(now);
      phoneTimeCharacteristic.SetValue(currentTime);
      phoneTimeCharacteristic.SetWriteType(WRITE_TYPE_DEFAULT);
      log := log + [WriteCharacteristic(bluetoothGatt.value, phoneTimeCharacteristic.uuid, currentTime)];
    }

    /** `sendServoCommand(command)`. */
    method SendServoCommand(granted: bool, command: string)
      requires Valid()
      modifies this, servoSignalCharacteristic
      ensures Valid()
      ensures State() == SendServoStep(old(State()), granted, command)
      ensures WritesServo(old(State()), granted, command) ==>
        && servoSignalCharacteristic.value == (if command == "on" then "1" else "0")
        && servoSignalCharacteristic.writeType == WRITE_TYPE_DEFAULT
      ensures !WritesServo(old(State()), granted, command) && servoSignalCharacteristic != null ==>
        unchanged(servoSignalCharacteristic)
      ensures phoneTimeCharacteristic != null ==> unchanged(phoneTimeCharacteristic)
    {
      if servoSignalCharacteristic == null || bluetoothGatt.None? {
        return;
      }
      if !granted {
        return;
      }
      if command == "on" {
        servoSignalCharacteristic.SetValue("1");
      } else if command == "off" {
        servoSignalCharacteristic.SetValue("0");
      } else {
        return;
      }
      servoSignalCharacteristic.SetWriteType(WRITE_TYPE_DEFAULT);
      log := log + [WriteCharacteristic(bluetoothGatt.value, servoSignalCharacteristic.uuid, servoSignalCharacteristic.value)];
    }
  }
}
