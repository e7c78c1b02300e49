/**
 * `BleScanManager`: one `isScanning` flag driven by `startScan`, `stopScan`,
 * the 15-second timeout and the platform's two scan callbacks.
 *
 * The main-thread `Handler` is modelled by its queue of pending timeouts
 * (`postDelayed` appends, `removeCallbacksAndMessages(null)` empties it, and
 * the timeout event runs the oldest). Platform scan calls and listener calls
 * are recorded, in order, in an event log; permission checks are boolean
 * parameters and the current time is an input of `startScan`.
 */
module BleScan {
  import opened Wrappers

  /** A remote device (`BluetoothDevice`) delivered by a scan result. */
  type DeviceId = nat

  /** `SCAN_PERIOD`: a scan is stopped 15 000 ms after it starts. */
  const ScanPeriodMs: nat := 15000

  /** Why `onScanFailed` was called (the three string resources). */
  datatype Failure =
    | NeedPermission
    | ScanTimeout
    | ScanFailedCode(code: int)

  /** What the manager does, in order: listener calls and platform calls. */
  datatype Event =
    // listener calls
    | DeviceFound(device: DeviceId)
    | ScanFailed(reason: Failure)
    // platform calls
    | PlatformStartScan(deviceName: string)
    | PlatformStopScan

  /** A timeout posted to the handler: which scan posted it and when it is due. */
  datatype Timeout = Timeout(scan: nat, due: nat)

  /**
   * The manager's state: the flag, the handler's pending timeouts, how many
   * scans have been started (the latest is number `started`, begun at time
   * `startedAt`), and the event log.
   */
  datatype Scanner = Scanner(isScanning: bool, pending: seq<Timeout>, started: nat, startedAt: nat, log: seq<Event>)

  const Idle: Scanner := Scanner(false, [], 0, 0, [])

  /** Holds in every reachable state: every pending timeout was posted by a scan that was started, in order. */
  predicate Consistent(s: Scanner) {
    && (s.isScanning ==> s.started > 0)
    && (forall i :: 0 <= i < |s.pending| ==> 1 <= s.pending[i].scan <= s.started)
    && (forall i, j :: 0 <= i < j < |s.pending| ==> s.pending[i].scan < s.pending[j].scan)
  }

  /**
   * What the timeout is for: at most one timeout is pending, only while a scan
   * runs, and it belongs to the scan that is running, due one scan period
   * after that scan began.
   */
  predicate TimeoutTracksScan(s: Scanner) {
    && |s.pending| <= 1
    && (s.pending != [] ==>
          && s.isScanning
          && s.pending[0].scan == s.started
          && s.pending[0].due == s.startedAt + ScanPeriodMs)
  }

  function Emit(s: Scanner, e: Event): (r: Scanner)
    ensures r.log == s.log + [e]
    ensures r.(log := s.log) == s
  {
    s.(log := s.log + [e])
  }

  /** `startScan(deviceName)` at time `now`. */
  function StartScanStep(s: Scanner, deviceName: string, granted: bool, now: nat): (r: Scanner)
    ensures Consistent(s) ==> Consistent(r)
    ensures TimeoutTracksScan(s) ==> TimeoutTracksScan(r)
  {
    if s.isScanning then s
    else if !granted then Emit(s, ScanFailed(NeedPermission))
    else
      Emit(s.(pending := s.pending + [Timeout(s.started + 1, now + ScanPeriodMs)],
              isScanning := true,
              started := s.started + 1,
              startedAt := now),
           PlatformStartScan(deviceName))
  }

  /** `stopScan()`. */
  function StopScanStep(s: Scanner, granted: bool): (r: Scanner)
    ensures Consistent(s) ==> Consistent(r)
    ensures TimeoutTracksScan(s) ==> TimeoutTracksScan(r)
  {
    if !s.isScanning then s
    else if !granted then Emit(s, ScanFailed(NeedPermission))
    else Emit(s.(isScanning := false, pending := []), PlatformStopScan)
  }

  /** The handler runs the oldest pending timeout: if a scan is running it is stopped and a timeout reported. */
  function TimeoutStep(s: Scanner, granted: bool): (r: Scanner)
    requires s.pending != []
    ensures Consistent(s) ==> Consistent(r)
    ensures TimeoutTracksScan(s) ==> TimeoutTracksScan(r)
  {
    var s1 := s.(pending := s.pending[1..]);
    if s1.isScanning then Emit(StopScanStep(s1, granted), ScanFailed(ScanTimeout))
    else s1
  }

  /** The platform's `onScanResult`: stop the scan, then deliver the device. */
  function ScanResultStep(s: Scanner, granted: bool, device: DeviceId): (r: Scanner)
    ensures Consistent(s) ==> Consistent(r)
    ensures TimeoutTracksScan(s) ==> TimeoutTracksScan(r)
  {
    Emit(StopScanStep(s, granted), DeviceFound(device))
  }

  /** The platform's `onScanFailed(errorCode)`, as written: the flag is cleared, the pending timeout is not. */
  function ScanFailedStep(s: Scanner, code: int): (r: Scanner)
    ensures Consistent(s) ==> Consistent(r)
    ensures !r.isScanning && r.pending == s.pending
  {
    Emit(s.(isScanning := false), ScanFailed(ScanFailedCode(code)))
  }

  /** `onScanFailed(errorCode)` as evidently intended: like `stopScan`, it also removes the pending timeout. */
  function ScanFailedCancellingTimeoutStep(s: Scanner, code: int): (r: Scanner)
    ensures Consistent(s) ==> Consistent(r)
    ensures TimeoutTracksScan(r)
  {
    Emit(s.(isScanning := false, pending := []), ScanFailed(ScanFailedCode(code)))
  }

  // ---------------------------------------------------------------------------
  // Properties of the steps

  /** Timeouts whose scan numbers rise strictly within `lo..hi` are at most `hi - lo + 1`. */
  lemma {:induction false} RisingScansBounded(p: seq<Timeout>, lo: nat, hi: nat)
    requires forall i :: 0 <= i < |p| ==> lo <= p[i].scan <= hi
    requires forall i, j :: 0 <= i < j < |p| ==> p[i].scan < p[j].scan
    ensures p == [] || |p| + lo <= hi + 1
  {
    if p != [] {
      var rest := p[1..];
      assert forall i :: 0 <= i < |rest| ==> rest[i] == p[i + 1];
      RisingScansBounded(rest, p[0].scan + 1, hi);
    }
  }

  /**
   * In every consistent state the handler holds at most one timeout per scan
   * started: `startScan` posts one timeout per scan and nothing posts more.
   */
  lemma PendingOnePerScan(s: Scanner)
    requires Consistent(s)
    ensures |s.pending| <= s.started
  {
    RisingScansBounded(s.pending, 1, s.started);
  }

  /** `startScan` while a scan is running does nothing: no scan, no timeout, no listener call. */
  lemma StartScanWhileScanning(s: Scanner, deviceName: string, granted: bool, now: nat)
    requires s.isScanning
    ensures StartScanStep(s, deviceName, granted, now) == s
  {
  }

  /** `startScan` without permission reports one failure and changes nothing else. */
  lemma StartScanWithoutPermission(s: Scanner, deviceName: string, now: nat)
    requires !s.isScanning
    ensures var r := StartScanStep(s, deviceName, false, now);
      && r.(log := s.log) == s
      && !r.isScanning
      && r.log == s.log + [ScanFailed(NeedPermission)]
  {
  }

  /**
   * A permitted `startScan` from idle schedules exactly one timeout, due one
   * scan period from now, sets the flag and starts exactly one platform scan
   * filtered by the device name.
   */
  lemma StartScanSuccess(s: Scanner, deviceName: string, now: nat)
    requires !s.isScanning
    ensures var r := StartScanStep(s, deviceName, true, now);
      && r.isScanning
      && r.pending == s.pending + [Timeout(r.started, now + ScanPeriodMs)]
      && r.started == s.started + 1
      && r.log == s.log + [PlatformStartScan(deviceName)]
  {
  }

  /**
   * `stopScan`: a no-op when not scanning; without permission it reports one
   * failure and the scan goes on; otherwise the flag is cleared, every pending
   * timeout is removed and the platform scan is stopped once.
   */
  lemma StopScanOutcome(s: Scanner, granted: bool)
    ensures !s.isScanning ==> StopScanStep(s, granted) == s
    ensures s.isScanning && !granted ==>
      StopScanStep(s, granted) == s.(log := s.log + [ScanFailed(NeedPermission)])
    ensures s.isScanning && granted ==>
      StopScanStep(s, granted) == s.(isScanning := false, pending := [], log := s.log + [PlatformStopScan])
  {
  }

  /**
   * The timeout acts only while a scan is running: then (with permission) it
   * stops the scan and reports `scan_timeout`; otherwise it only leaves the
   * handler's queue.
   */
  lemma TimeoutOutcome(s: Scanner, granted: bool)
    requires s.pending != []
    ensures !s.isScanning ==> TimeoutStep(s, granted) == s.(pending := s.pending[1..])
    ensures s.isScanning && granted ==>
      && !TimeoutStep(s, granted).isScanning
      && TimeoutStep(s, granted).pending == []
      && TimeoutStep(s, granted).log == s.log + [PlatformStopScan, ScanFailed(ScanTimeout)]
    ensures s.isScanning && !granted ==>
      && TimeoutStep(s, granted).isScanning
      && TimeoutStep(s, granted).log == s.log + [ScanFailed(NeedPermission), ScanFailed(ScanTimeout)]
  {
  }

  /**
   * A scan result stops the scan before the device is delivered: the device is
   * the last event, and with permission the flag is already clear and the
   * platform scan stopped (if one was running) when it is delivered.
   */
  lemma ScanResultStopsFirst(s: Scanner, granted: bool, device: DeviceId)
    ensures var r := ScanResultStep(s, granted, device);
      && r.log[|r.log| - 1] == DeviceFound(device)
      && (granted ==> !r.isScanning)
      && (granted && s.isScanning ==> r.log == s.log + [PlatformStopScan, DeviceFound(device)])
      && (!s.isScanning ==> r.log == s.log + [DeviceFound(device)])
  {
  }

  /** The platform's scan failure clears the flag and reports one failure carrying the error code. */
  lemma ScanFailedOutcome(s: Scanner, code: int)
    ensures var r := ScanFailedStep(s, code);
      && !r.isScanning
      && r.log == s.log + [ScanFailed(ScanFailedCode(code))]
      && r.started == s.started
  {
  }

  /**
   * As written, a timeout left behind by a failed scan cuts the next scan
   * short: start at 0 ms, the platform reports failure, start again at
   * 5 000 ms; the first scan's timeout, due at 15 000 ms, then stops the second
   * scan after 10 000 ms and reports `scan_timeout`.
   */
  lemma StaleTimeoutCutsNextScanShort()
    ensures var s1 := StartScanStep(Idle, "Remote Switch", true, 0);
      var s2 := ScanFailedStep(s1, 2);
      var s3 := StartScanStep(s2, "Remote Switch", true, 5000);
      var s4 := TimeoutStep(s3, true);
      && !TimeoutTracksScan(s2)
      && s3.isScanning && s3.started == 2 && s3.startedAt == 5000
      && s3.pending[0] == Timeout(1, ScanPeriodMs)
      && s3.pending[0].due - s3.startedAt < ScanPeriodMs
      && !s4.isScanning
      && s4.log[|s4.log| - 1] == ScanFailed(ScanTimeout)
  {
  }

  /**
   * With the corrected failure handler every step keeps `TimeoutTracksScan`,
   * so a timeout that fires is the running scan's own, due one full scan
   * period after that scan began. It then leaves nothing pending and, with
   * permission, stops that scan and reports `scan_timeout`.
   */
  lemma TimeoutStopsOnlyItsOwnScan(s: Scanner, granted: bool)
    requires TimeoutTracksScan(s) && s.pending != [] && s.isScanning
    ensures TimeoutStep(s, granted).pending == []
    ensures granted ==> !TimeoutStep(s, granted).isScanning
    ensures granted ==> TimeoutStep(s, granted).log == s.log + [PlatformStopScan, ScanFailed(ScanTimeout)]
    ensures TimeoutTracksScan(TimeoutStep(s, granted))
  {
  }

  /** The events that drive the manager. */
  datatype Input =
    | StartScanCall(deviceName: string, granted: bool, now: nat)
    | StopScanCall(granted: bool)
    | TimeoutFires(granted: bool)
    | ScanResultCallback(granted: bool, device: DeviceId)
    | ScanFailedCallback(code: int)

  /** One event of the corrected manager; a timeout with nothing pending does not happen. */
  function CorrectedStep(s: Scanner, input: Input): Scanner {
    match input
    case StartScanCall(name, granted, now) => StartScanStep(s, name, granted, now)
    case StopScanCall(granted) => StopScanStep(s, granted)
    case TimeoutFires(granted) => if s.pending == [] then s else TimeoutStep(s, granted)
    case ScanResultCallback(granted, device) => ScanResultStep(s, granted, device)
    case ScanFailedCallback(code) => ScanFailedCancellingTimeoutStep(s, code)
  }

  function CorrectedRun(s: Scanner, inputs: seq<Input>): Scanner
    decreases |inputs|
  {
    if inputs == [] then s else CorrectedRun(CorrectedStep(s, inputs[0]), inputs[1..])
  }

  /** Any run of the corrected manager from a state that keeps `TimeoutTracksScan` keeps it. */
  lemma {:induction false} CorrectedRunTracksTimeouts(s: Scanner, inputs: seq<Input>)
    requires TimeoutTracksScan(s)
    ensures TimeoutTracksScan(CorrectedRun(s, inputs))
    decreases |inputs|
  {
    if inputs != [] {
      CorrectedRunTracksTimeouts(CorrectedStep(s, inputs[0]), inputs[1..]);
    }
  }

  // ---------------------------------------------------------------------------
  // The manager object

  /** The platform's Bluetooth adapter. */
  type AdapterId = nat

  /** An exception a constructor throws. */
  datatype Exception = IllegalStateException(message: string)

  const NotSupportedMessage: string := "Bluetooth not supported on this device."

  class BleScanManager {
    var isScanning: bool
    /** The handler's queue of posted timeouts, oldest first (platform state, hence ghost). */
    ghost var pending: seq<Timeout>
    ghost var started: nat
    ghost var startedAt: nat
    /** Listener and platform calls made so far, oldest first. */
    ghost var log: seq<Event>

    ghost function State(): Scanner
      reads this
    {
      Scanner(isScanning, pending, started, startedAt, log)
    }

    ghost predicate Valid()
      reads this
    {
      Consistent(State())
    }

    /** The part of the constructor that runs once an adapter is present. */
    constructor ()
      ensures Valid() && State() == Idle
    {
      isScanning := false;
      pending := [];
      started := 0;
      startedAt := 0;
      log := [];
    }

    /** `startScan(deviceName)`, called at time `now`. */
    method StartScan(deviceName: string, granted: bool, now: nat)
      requires Valid()
      modifies this
      ensures Valid()
      ensures State() == StartScanStep(old(State()), deviceName, granted, now)
    {
      if isScanning {
        return;
      }
      if !granted {
        log := log + [ScanFailed(NeedPermission)];
        return;
      }
      pending := pending + [Timeout(started + 1, now + ScanPeriodMs)];
      started, startedAt := started + 1, now;
      isScanning := true;
      log := log + [PlatformStartScan(deviceName)];
    }

    /** `stopScan()`. */
    method StopScan(granted: bool)
      requires Valid()
      modifies this
      ensures Valid()
      ensures State() == StopScanStep(old(State()), granted)
    {
      if !isScanning {
        return;
      }
      if !granted {
        log := log + [ScanFailed(NeedPermission)];
        return;
      }
      isScanning := false;
      pending := [];
      log := log + [PlatformStopScan];
    }

    /** The handler runs the oldest posted timeout. */
    method RunTimeout(granted: bool)
      requires Valid() && pending != []
      modifies this
      ensures Valid()
      ensures State() == TimeoutStep(old(State()), granted)
    {
      pending := pending[1..];
      if isScanning {
        StopScan(granted);
        log := log + [ScanFailed(ScanTimeout)];
      }
    }

    /** The platform's `onScanResult(callbackType, result)`. */
    method OnScanResult(granted: bool, device: DeviceId)
      requires Valid()
      modifies this
      ensures Valid()
      ensures State() == ScanResultStep(old(State()), granted, device)
    {
      StopScan(granted);
      log := log + [DeviceFound(device)];
    }

    /** The platform's `onScanFailed(errorCode)`, as written. */
    method OnScanFailed(code: int)
      requires Valid()
      modifies this
      ensures Valid()
      ensures State() == ScanFailedStep(old(State()), code)
    {
      isScanning := false;
      log := log + [ScanFailed(ScanFailedCode(code))];
    }

    /** `onScanFailed(errorCode)` with the pending timeout removed, as `stopScan` does. */
    method OnScanFailedCancellingTimeout(code: int)
      requires Valid()
      modifies this
      ensures Valid() && TimeoutTracksScan(State())
      ensures State() == ScanFailedCancellingTimeoutStep(old(State()), code)
    {
      isScanning := false;
      pending := [];
      log := log + [ScanFailed(ScanFailedCode(code))];
    }
  }

  /** `new BleScanManager(context, adapter, listener)`: with no adapter the constructor throws. */
  method NewBleScanManager(adapter: Option<AdapterId>) returns (r: Result<BleScanManager, Exception>)
    ensures adapter.None? <==> r.Failure?
    ensures r.Failure? ==> r.error == IllegalStateException(NotSupportedMessage)
    ensures r.Success? ==> fresh(r.value) && r.value.Valid() && r.value.State() == Idle
  {
    if adapter.None? {
      return Failure(IllegalStateException(NotSupportedMessage));
    }
    var m := new BleScanManager();
    return Success(m);
  }
}
