# RemoteSwitch BLE managers — a Dafny model

RemoteSwitch is an Android app that finds one Bluetooth Low Energy peripheral
("Remote Switch"), connects to it over GATT, writes the phone's time of day to
it and switches a servo on and off. This project models the two classes that
talk to the Bluetooth stack, and proves properties of the model:

- **`BleConnectManager`** (`connect_manager.dfy`, with `uuids.dfy` and
  `payloads.dfy`).
  - `uuidFromShortUuid16` expands a 16-bit assigned number to a 128-bit UUID
    against the Bluetooth Base UUID. See Bluetooth Core Specification, Vol 3,
    Part B, section 2.5.1.
  - The manager holds a nullable GATT handle and two nullable characteristics.
    It opens and closes the handle, reacts to the connection-state and
    service-discovery callbacks, and writes the `HH:mm:ss` time and the
    `"1"`/`"0"` servo payloads.
- **`BleScanManager`** (`scan_manager.dfy`). One `isScanning` flag is driven by
  `startScan`, `stopScan`, a 15-second timeout and the two scan callbacks.

How the model is built:

- Each class is a Dafny class with the Java fields. Each method is tied to a
  pure step function over an abstract state: `State() == XStep(old(State()), …)`.
- The properties are proved as lemmas about those step functions, and as the
  invariant each step function keeps (`Inv` for the connection,
  `Consistent` for the scanner).
- Listener calls and platform calls are appended, in order, to a ghost event
  log. The platform calls are `connectGatt`, `disconnect`, `discoverServices`,
  `close`, `writeCharacteristic`, `startScan` and `stopScan`.
- Every permission check is a boolean parameter.
- Some values come from outside and are inputs: what `connectGatt` returns,
  what service discovery finds, the wall-clock reading and the time
  `startScan` is called.
- The main-thread `Handler` is modelled by its queue of pending timeouts.
  Firing the timeout is an explicit event.

## Model

| member | source | states |
|---|---|---|
| Uuids.ExpandShortUuid | android/app/src/main/java/com/example/remoteswitch/BleConnectManager.java:26 | the expansion `uuid16 * 2^96 + Base` keeps the Base UUID in its low 96 bits and the 16-bit number above them |
| Uuids.ToHexRoundTrip | android/app/src/main/java/com/example/remoteswitch/BleConnectManager.java:27 | the hexadecimal digits printed for any number read back as that number |
| Uuids.FormatHex04 | android/app/src/main/java/com/example/remoteswitch/BleConnectManager.java:27 | `%04X` prints any `int` as at least four upper-case hex digits that read back as the number, or, for a negative one, as its 32-bit two's complement `n + 2^32` |
| Uuids.FormatHex04Shape | android/app/src/main/java/com/example/remoteswitch/BleConnectManager.java:27 | for 16-bit numbers the digits are exactly four |
| Uuids.ParseUuid | android/app/src/main/java/com/example/remoteswitch/BleConnectManager.java:28 | `UUID.fromString` yields a UUID exactly for canonical 8-4-4-4-12 text |
| Uuids.ShortUuidText | android/app/src/main/java/com/example/remoteswitch/BleConnectManager.java:27-28 | the text handed to the parser starts with `0000`, ends with the Base UUID's tail `-0000-1000-8000-00805F9B34FB` and is at least 36 characters long |
| Uuids.ShortUuidTextShape | android/app/src/main/java/com/example/remoteswitch/BleConnectManager.java:25-29 | for 0..0xFFFF the text is `0000`, four upper-case hex digits that read back as the input, then the tail: 36 characters |
| Uuids.UuidFromShortUuid16 | android/app/src/main/java/com/example/remoteswitch/BleConnectManager.java:25-29 | every 16-bit number gives `uuid16 * 2^96 + Base` (the identity in the source's comment); every other `int` makes the parser throw |
| Uuids.ShortUuidTextExpands | android/app/src/main/java/com/example/remoteswitch/BleConnectManager.java:27-28 | for 0..0xFFFF the built text parses, read as a 128-bit number, to `uuid16 * 2^96 + Base` |
| Uuids.ShortUuidTextRejected | android/app/src/main/java/com/example/remoteswitch/BleConnectManager.java:27-28 | any other `int` (negative ones in two's complement) prints more than four digits, so the text is over 36 characters and is rejected |
| Uuids.UuidFromShortUuid16Injective | android/app/src/main/java/com/example/remoteswitch/BleConnectManager.java:25-29 | two inputs giving the same UUID are the same input |
| Uuids.UuidConstants | android/app/src/main/java/com/example/remoteswitch/BleConnectManager.java:32-35 | the four service/characteristic constants are the expansions of 0x1805, 0x2A2B, 0x1815, 0x2A56; the two services differ, and so do the two characteristics |
| Uuids.ClientCharacteristicConfigIs2902 | android/app/src/main/java/com/example/remoteswitch/BleConnectManager.java:38 | the lower-case literal denotes the same UUID as `uuidFromShortUuid16(0x2902)` |
| Payloads.TimeText | android/app/src/main/java/com/example/remoteswitch/BleConnectManager.java:188-190 | the text printed for every time of day has the `HH:mm:ss` shape and parses back to that time |
| Payloads.ParseTimeRoundTrip | android/app/src/main/java/com/example/remoteswitch/BleConnectManager.java:188-190 | every text that parses as a time is the text printed for that time |
| Payloads.TimeTextInjective | android/app/src/main/java/com/example/remoteswitch/BleConnectManager.java:188-190 | distinct times give distinct payloads |
| Payloads.ServoPayload | android/app/src/main/java/com/example/remoteswitch/BleConnectManager.java:206-210 | a payload exists iff the command is `"on"` or `"off"`; it is `"1"` or `"0"`, and its inverse `ServoCommandOf` gives back the command |
| Payloads.ServoCommandRoundTrip | android/app/src/main/java/com/example/remoteswitch/BleConnectManager.java:206-210 | each payload comes from exactly one command |
| BleConnect.GetService | android/app/src/main/java/com/example/remoteswitch/BleConnectManager.java:126 | null iff no service has the UUID, else the first service with it |
| BleConnect.GetCharacteristic | android/app/src/main/java/com/example/remoteswitch/BleConnectManager.java:128 | null iff no characteristic has the UUID, else the first one with it |
| BleConnect.Lookup | android/app/src/main/java/com/example/remoteswitch/BleConnectManager.java:136-138 | a characteristic found under a service has the UUID it was looked up by |
| BleConnect.Rediscover | android/app/src/main/java/com/example/remoteswitch/BleConnectManager.java:126-144 | a field whose service is missing keeps its old value; otherwise it becomes the service's characteristic with the looked-up UUID, or null |
| BleConnect.ConnectStep | android/app/src/main/java/com/example/remoteswitch/BleConnectManager.java:65-77 | `connect` keeps the invariant (field UUIDs match, every write is decodable) |
| BleConnect.ConnectFailure | android/app/src/main/java/com/example/remoteswitch/BleConnectManager.java:65-73 | with no device or no permission: one `onConnectFailed` with the matching message, no platform call, handle unchanged |
| BleConnect.ConnectSuccess | android/app/src/main/java/com/example/remoteswitch/BleConnectManager.java:74-76 | otherwise: one `connectGatt`, no listener call, the handle becomes what `connectGatt` returned |
| BleConnect.DisconnectStep | android/app/src/main/java/com/example/remoteswitch/BleConnectManager.java:79-88 | `disconnect` keeps the invariant |
| BleConnect.DisconnectKeepsHandle | android/app/src/main/java/com/example/remoteswitch/BleConnectManager.java:79-88 | `disconnect` changes no field and never calls the listener; with no handle or without permission it is a no-op; otherwise its one effect is the platform `disconnect` on the handle |
| BleConnect.CloseStep | android/app/src/main/java/com/example/remoteswitch/BleConnectManager.java:169-178 | `close` keeps the invariant |
| BleConnect.CloseIdempotent | android/app/src/main/java/com/example/remoteswitch/BleConnectManager.java:169-178 | with permission and a handle: one platform `close` on it and the handle forgotten; device and both characteristics always kept; without permission or handle nothing changes; a second `close` changes nothing |
| BleConnect.StateChangeStep | android/app/src/main/java/com/example/remoteswitch/BleConnectManager.java:93-108 | a state change keeps the invariant |
| BleConnect.DisconnectedCallbackOrder | android/app/src/main/java/com/example/remoteswitch/BleConnectManager.java:103-107 | DISCONNECTED reports `onDeviceDisconnected` first, then closes the handle; afterwards there is no handle, and the device and both characteristics are kept |
| BleConnect.ConnectedCallbackOnlyDiscovers | android/app/src/main/java/com/example/remoteswitch/BleConnectManager.java:99-102 | CONNECTED only starts service discovery on the callback's handle: no listener call, no field change |
| BleConnect.StateChangeWithoutPermission | android/app/src/main/java/com/example/remoteswitch/BleConnectManager.java:94-97 | without permission a state change appends exactly one `onConnectFailed` (no platform call) and changes no field |
| BleConnect.ServicesDiscoveredStep | android/app/src/main/java/com/example/remoteswitch/BleConnectManager.java:111-153 | discovery keeps the invariant: a characteristic stored in a field has that field's UUID |
| BleConnect.ReadinessGate | android/app/src/main/java/com/example/remoteswitch/BleConnectManager.java:149-152 | after discovery `onDeviceConnected` is called, once, iff both characteristics are non-null; otherwise nothing is reported |
| BleConnect.DiscoveryUpdatesFields | android/app/src/main/java/com/example/remoteswitch/BleConnectManager.java:125-144 | on success each field separately: kept when its service is missing (even from an earlier discovery), else the service's characteristic or null |
| BleConnect.StaleServoSignalPassesGate | android/app/src/main/java/com/example/remoteswitch/BleConnectManager.java:126-152 | a servo characteristic from an earlier discovery survives a discovery without the servo service, and with the time characteristic found `onDeviceConnected` fires |
| BleConnect.FailedDiscoveryKeepsCharacteristics | android/app/src/main/java/com/example/remoteswitch/BleConnectManager.java:112-147 | a failed discovery leaves both characteristic fields as they were |
| BleConnect.FreshDiscoveryReady | android/app/src/main/java/com/example/remoteswitch/BleConnectManager.java:125-152 | from empty fields, a successful discovery reports the device connected iff both characteristics exist under their services |
| BleConnect.CharacteristicWriteStep | android/app/src/main/java/com/example/remoteswitch/BleConnectManager.java:156-166 | the write callback keeps the invariant |
| BleConnect.TimeSyncedOnlyForPhoneTime | android/app/src/main/java/com/example/remoteswitch/BleConnectManager.java:156-166 | `onTimeSynced` is reported iff the write succeeded and was to the phone-time characteristic |
| BleConnect.WriteTimeStep | android/app/src/main/java/com/example/remoteswitch/BleConnectManager.java:180-195 | writing the time keeps the invariant: the payload is a well-formed time |
| BleConnect.TimeWriteOutcome | android/app/src/main/java/com/example/remoteswitch/BleConnectManager.java:180-195 | past the guards, one write of `HH:mm:ss` (parsing back to the clock reading) to the phone-time characteristic; otherwise nothing |
| BleConnect.SendServoStep | android/app/src/main/java/com/example/remoteswitch/BleConnectManager.java:197-214 | sending a command keeps the invariant: the payload is a servo signal |
| BleConnect.ServoCommandOutcome | android/app/src/main/java/com/example/remoteswitch/BleConnectManager.java:197-214 | a write happens iff characteristic and handle are set, permission is granted and the command is `"on"`/`"off"`; it writes `"1"`/`"0"` to the servo characteristic; otherwise nothing changes |
| BleConnect.GattLifecycle | android/app/src/main/java/com/example/remoteswitch/BleConnectManager.java:65-178 | the handle goes null → set (by `connect`) → null (by the DISCONNECTED callback), with exactly one listener call, `onDeviceDisconnected` |
| BleConnect.Characteristic.SetValue | android/app/src/main/java/com/example/remoteswitch/BleConnectManager.java:192 | `setValue` stores the payload in place; the write type stays |
| BleConnect.Characteristic.SetWriteType | android/app/src/main/java/com/example/remoteswitch/BleConnectManager.java:193 | `setWriteType` sets the write type in place; the value stays |
| BleConnect.BleConnectManager.constructor | android/app/src/main/java/com/example/remoteswitch/BleConnectManager.java:59-63 | a new manager has no handle, no characteristics and has made no call |
| BleConnect.BleConnectManager.Connect | android/app/src/main/java/com/example/remoteswitch/BleConnectManager.java:65-77 | new state is `ConnectStep` of the old |
| BleConnect.BleConnectManager.Disconnect | android/app/src/main/java/com/example/remoteswitch/BleConnectManager.java:79-88 | new state is `DisconnectStep` of the old |
| BleConnect.BleConnectManager.OnConnectionStateChange | android/app/src/main/java/com/example/remoteswitch/BleConnectManager.java:93-108 | new state is `StateChangeStep` of the old (calling `Close` for DISCONNECTED) |
| BleConnect.BleConnectManager.OnServicesDiscovered | android/app/src/main/java/com/example/remoteswitch/BleConnectManager.java:111-153 | new state is `ServicesDiscoveredStep` of the old |
| BleConnect.BleConnectManager.OnCharacteristicWrite | android/app/src/main/java/com/example/remoteswitch/BleConnectManager.java:156-166 | new state is `CharacteristicWriteStep` of the old |
| BleConnect.BleConnectManager.Close | android/app/src/main/java/com/example/remoteswitch/BleConnectManager.java:169-178 | new state is `CloseStep` of the old |
| BleConnect.BleConnectManager.WriteCurrentTime | android/app/src/main/java/com/example/remoteswitch/BleConnectManager.java:180-195 | new state is `WriteTimeStep` of the old; when it writes, the characteristic holds `HH:mm:ss` with the default write type; otherwise it is unchanged; the servo characteristic is untouched |
| BleConnect.BleConnectManager.SendServoCommand | android/app/src/main/java/com/example/remoteswitch/BleConnectManager.java:197-214 | new state is `SendServoStep` of the old; when it writes, the characteristic holds `"1"`/`"0"` with the default write type; otherwise it is unchanged; the time characteristic is untouched |
| BleScan.PendingOnePerScan | android/app/src/main/java/com/example/remoteswitch/BleScanManager.java:80-85 | in every consistent state the handler holds at most one timeout per scan started |
| BleScan.StartScanStep | android/app/src/main/java/com/example/remoteswitch/BleScanManager.java:59-90 | `startScan` keeps `Consistent` and `TimeoutTracksScan` |
| BleScan.StartScanWhileScanning | android/app/src/main/java/com/example/remoteswitch/BleScanManager.java:60-63 | while scanning, `startScan` changes nothing: no scan, no timeout, no listener call |
| BleScan.StartScanWithoutPermission | android/app/src/main/java/com/example/remoteswitch/BleScanManager.java:66-69 | without permission: one `need_permission` failure, `isScanning` stays false, nothing else changes |
| BleScan.StartScanSuccess | android/app/src/main/java/com/example/remoteswitch/BleScanManager.java:80-88 | otherwise: one timeout posted, due 15 000 ms later; `isScanning` set; exactly one platform scan filtered by the name |
| BleScan.StopScanStep | android/app/src/main/java/com/example/remoteswitch/BleScanManager.java:92-103 | `stopScan` keeps `Consistent` and `TimeoutTracksScan` |
| BleScan.StopScanOutcome | android/app/src/main/java/com/example/remoteswitch/BleScanManager.java:92-103 | not scanning: no-op; no permission: one failure, still scanning; otherwise flag cleared, timeouts removed, one platform stop |
| BleScan.TimeoutStep | android/app/src/main/java/com/example/remoteswitch/BleScanManager.java:80-85 | the timeout keeps `Consistent` and `TimeoutTracksScan` |
| BleScan.TimeoutOutcome | android/app/src/main/java/com/example/remoteswitch/BleScanManager.java:80-85 | the timeout acts only while scanning: then it stops the scan (with permission) and reports `scan_timeout` |
| BleScan.ScanResultStep | android/app/src/main/java/com/example/remoteswitch/BleScanManager.java:108-115 | a scan result keeps `Consistent` and `TimeoutTracksScan` |
| BleScan.ScanResultStopsFirst | android/app/src/main/java/com/example/remoteswitch/BleScanManager.java:113-114 | the scan is stopped before the device is delivered; with permission `isScanning` is already false |
| BleScan.ScanFailedStep | android/app/src/main/java/com/example/remoteswitch/BleScanManager.java:118-123 | the platform failure keeps `Consistent`, clears the flag and leaves pending timeouts in place |
| BleScan.ScanFailedOutcome | android/app/src/main/java/com/example/remoteswitch/BleScanManager.java:118-123 | the platform failure clears `isScanning` and reports one failure carrying the error code |
| BleScan.StaleTimeoutCutsNextScanShort | android/app/src/main/java/com/example/remoteswitch/BleScanManager.java:80-122 | a timeout left by a failed scan stops the next scan after 10 s instead of 15 s |
| BleScan.ScanFailedCancellingTimeoutStep | android/app/src/main/java/com/example/remoteswitch/BleScanManager.java:118-123 | the corrected failure handler re-establishes `TimeoutTracksScan` |
| BleScan.TimeoutStopsOnlyItsOwnScan | android/app/src/main/java/com/example/remoteswitch/BleScanManager.java:80-100 | when the timeout fires on a state where it tracks the running scan, it leaves nothing pending and, with permission, stops that scan and reports `scan_timeout`; the invariant holds afterwards |
| BleScan.CorrectedRunTracksTimeouts | android/app/src/main/java/com/example/remoteswitch/BleScanManager.java:59-123 | every run of the corrected manager keeps `TimeoutTracksScan` |
| BleScan.NewBleScanManager | android/app/src/main/java/com/example/remoteswitch/BleScanManager.java:50-57 | with no adapter construction fails with `IllegalStateException`; otherwise the new manager is idle |
| BleScan.BleScanManager.constructor | android/app/src/main/java/com/example/remoteswitch/BleScanManager.java:42 | a new manager is not scanning, has nothing pending and has made no call |
| BleScan.BleScanManager.StartScan | android/app/src/main/java/com/example/remoteswitch/BleScanManager.java:59-90 | new state is `StartScanStep` of the old |
| BleScan.BleScanManager.StopScan | android/app/src/main/java/com/example/remoteswitch/BleScanManager.java:92-103 | new state is `StopScanStep` of the old |
| BleScan.BleScanManager.RunTimeout | android/app/src/main/java/com/example/remoteswitch/BleScanManager.java:80-85 | new state is `TimeoutStep` of the old |
| BleScan.BleScanManager.OnScanResult | android/app/src/main/java/com/example/remoteswitch/BleScanManager.java:108-115 | new state is `ScanResultStep` of the old |
| BleScan.BleScanManager.OnScanFailed | android/app/src/main/java/com/example/remoteswitch/BleScanManager.java:118-123 | new state is `ScanFailedStep` of the old |
| BleScan.BleScanManager.OnScanFailedCancellingTimeout | android/app/src/main/java/com/example/remoteswitch/BleScanManager.java:118-123 | new state is `ScanFailedCancellingTimeoutStep` of the old, in which the timeout tracks the scan |

## Left out

- `MainActivity.java` and `HelpActivity.java` are not part of this model. They are Activity UI: widgets, status text, preferences, bonding broadcasts, permission dialogs and asset reading.
- The Android Bluetooth stack is recorded, not executed. `connectGatt`, `discoverServices`, `disconnect`, `close`, `writeCharacteristic` and the LE scanner's `startScan`/`stopScan` only append an event. Their asynchronous outcomes arrive through the callback methods.
- Each method takes one permission flag. Every check made during that call sees the same value, including the check in the `close()` that the DISCONNECTED callback calls.
- The model does not say when a timeout fires relative to other events. The handler's queue runs timeouts oldest first, which matches posting order because every timeout has the same delay. `now` is an input of `startScan`.
- `getBluetoothLeScanner()` can return null, and `startScan` would then throw `NullPointerException`. The model does not cover this.
- Only the device-name part of the scan filter is recorded. The scan settings (`SCAN_MODE_LOW_LATENCY`) are left out.
- `writeCurrentTime` takes the clock reading as a `Clock` input. The model prints ASCII digits. A default locale that uses other digits is not modelled.
- `setValue(String)` stores the string's bytes. The model stores the string itself. Both payloads are ASCII.
- `Uuids.ParseUuid` accepts only the canonical 8-4-4-4-12 text. That is the only text this code hands it for 16-bit inputs. For any other `int` the text is longer than 36 characters, and the model rejects it as newer Java parsers do. Older, lenient parsers may accept it.
- The `onScanFailed` message strings are resources. They are modelled by the `Failure` constructors `NeedPermission`, `ScanTimeout` and `ScanFailedCode(code)`.
- Logging is left out, including the loop that prints every discovered service and characteristic.
- Callbacks arrive on platform threads. The model treats every call and callback as one sequential step.
- Listener objects and `Context` are not modelled.

## Findings

| source | as written | input that shows it | evidently intended | confidence | as-written member | corrected member |
|---|---|---|---|---|---|---|
| android/app/src/main/java/com/example/remoteswitch/BleScanManager.java:118-123 | `onScanFailed` clears `isScanning` but leaves the 15 s timeout that `startScan` posted in the handler queue | `startScan` at 0 ms; the platform reports scan failure; `startScan` at 5 000 ms; the first scan's timeout, due at 15 000 ms, finds a scan running, stops it after 10 000 ms and reports `scan_timeout` | a scan failure also removes the pending timeout, as `stopScan` does with `removeCallbacksAndMessages(null)`, so a timeout only stops the scan that posted it, a full 15 s after it began | medium; not executed | BleScan.StaleTimeoutCutsNextScanShort | BleScan.ScanFailedCancellingTimeoutStep |
