/** andor.py's Camera: one session on one camera, the `with_camera` call discipline
    around the shared driver, and the session's acquisition state machine. */
module Session {
  import opened Python
  import opened Driver
  import opened Settings
  import AndorSdk

  /** The driver returns on every one of `calls`. */
  predicate AllReturn(answer: Fn -> Reply, calls: seq<Fn>) {
    forall i | 0 <= i < |calls| :: !answer(calls[i]).Raised?
  }

  /** The calls of `calls` up to and including the first one the driver raises on: what a
      method that stops at its first failed call makes. */
  function Upto(answer: Fn -> Reply, calls: seq<Fn>): seq<Fn> {
    if calls == [] then []
    else if !answer(calls[0]).Raised? then [calls[0]] + Upto(answer, calls[1..])
    else [calls[0]]
  }

  /** Upto keeps a prefix of the calls: all of them when the driver returns on each, and
      otherwise the ones up to a call it raises on. */
  lemma {:induction false} UptoPrefix(answer: Fn -> Reply, calls: seq<Fn>)
    ensures Upto(answer, calls) <= calls
    ensures AllReturn(answer, calls) <==> Upto(answer, calls) == calls && (calls == [] || !answer(calls[|calls| - 1]).Raised?)
    ensures var r := Upto(answer, calls); |r| < |calls| ==> |r| > 0 && answer(r[|r| - 1]).Raised?
    decreases |calls|
  {
    if calls != [] {
      var t := calls[1..];
      assert calls == [calls[0]] + t;
      if answer(calls[0]).Raised? {
        assert Upto(answer, calls) == [calls[0]];
        assert !AllReturn(answer, calls);
      } else {
        UptoPrefix(answer, t);
        var u := Upto(answer, t);
        assert Upto(answer, calls) == [calls[0]] + u;
        assert AllReturn(answer, calls) <==> AllReturn(answer, t) by {
          assert forall i | 0 <= i < |t| :: t[i] == calls[i + 1];
        }
        assert t != [] ==> calls[|calls| - 1] == t[|t| - 1];
        assert u == t <==> [calls[0]] + u == calls;
      }
    }
  }

  /** Upto over two runs of calls: the second run starts only when the first all returned. */
  lemma {:induction false} UptoAppend(answer: Fn -> Reply, a: seq<Fn>, b: seq<Fn>)
    ensures Upto(answer, a + b) == if AllReturn(answer, a) then a + Upto(answer, b) else Upto(answer, a)
    decreases |a|
  {
    if a == [] {
      assert a + b == b;
    } else {
      var t := a[1..];
      assert (a + b)[1..] == t + b;
      if !answer(a[0]).Raised? {
        UptoAppend(answer, t, b);
        assert AllReturn(answer, a) == AllReturn(answer, t) by {
          assert forall i | 0 <= i < |t| :: t[i] == a[i + 1];
        }
        assert Upto(answer, a + b) == [a[0]] + Upto(answer, t + b);
        if AllReturn(answer, a) {
          assert a == [a[0]] + t;
        }
      } else {
        assert !AllReturn(answer, a);
      }
    }
  }

  /** Two calls: the second is made only when the first returns. */
  lemma UptoPair(answer: Fn -> Reply, x: Fn, y: Fn)
    ensures Upto(answer, [x, y]) == if !answer(x).Raised? then [x, y] else [x]
  {
    UptoAppend(answer, [x], [y]);
    UptoAppend(answer, [y], []);
    assert [x] + [y] == [x, y] && [y] + [] == [y];
  }

  /** The camera types on which make_safe switches to the conventional amplifier. */
  const CONVENTIONAL_AMPLIFIER_TYPES: set<nat> :=
    {AndorSdk.AC_CAMERATYPE_CLARA, AndorSdk.AC_CAMERATYPE_IXON,
     AndorSdk.AC_CAMERATYPE_IXONULTRA, AndorSdk.AC_CAMERATYPE_NEWTON}

  /** The driver calls make_safe makes, in order, for the given capabilities. */
  function SafeCalls(setFunctions: nat, cameraType: nat): seq<Fn> {
    (if AndorSdk.HasBit(setFunctions, AndorSdk.AC_SETFUNCTION_EMCCDGAIN_BIT) then [SetEMCCDGain(0)] else [])
    + (if cameraType in CONVENTIONAL_AMPLIFIER_TYPES then [SetOutputAmplifier(1)] else [])
  }

  /** make_safe zeroes the EM gain exactly when the capability bit is set, selects the
      conventional amplifier exactly on the four camera types that have one, does nothing
      else, and does the gain first. */
  lemma SafeCallsShape(setFunctions: nat, cameraType: nat)
    ensures SetEMCCDGain(0) in SafeCalls(setFunctions, cameraType)
      <==> (setFunctions / AndorSdk.AC_SETFUNCTION_EMCCDGAIN) % 2 == 1
    ensures SetOutputAmplifier(1) in SafeCalls(setFunctions, cameraType)
      <==> cameraType in {17, 1, 21, 8}
    ensures var calls := SafeCalls(setFunctions, cameraType);
      calls == [] || calls == [SetEMCCDGain(0)] || calls == [SetOutputAmplifier(1)]
      || calls == [SetEMCCDGain(0), SetOutputAmplifier(1)]
  {
    AndorSdk.HasBitMask(setFunctions, AndorSdk.AC_SETFUNCTION_EMCCDGAIN_BIT);
    AndorSdk.EmGainMask();
  }

  /** get_exposure_time's choice among the acquisition timings (exposure, accumulate, kinetic).
      `None` stands for the attribute that was never assigned. */
  function ExposureFor<T>(mode: Option<int>, timings: (T, T, T)): (r: Result<Option<T>>)
    ensures mode.None? <==> r == Raise(AttributeError)
    ensures mode.Some? && (mode.value < 1 || mode.value > 5) ==> r == Ok(None)
    ensures r.Ok? && r.value.Some? ==>
      r.value.value == timings.0 || r.value.value == timings.1 || r.value.value == timings.2
  {
    match mode
    case None => Raise(AttributeError)
    case Some(m) =>
      if m == 1 || m == 5 then Ok(Some(timings.0))
      else if m == 2 then Ok(Some(timings.1))
      else if m == 3 || m == 4 then Ok(Some(timings.2))
      else Ok(None)
  }

  /** Each acquisition mode reads its own timing: single scan and run-till-abort the exposure time,
      accumulate the accumulation cycle, kinetics and fast kinetics the kinetic cycle. */
  lemma ExposureForModes<T>(mode: int, timings: (T, T, T))
    ensures mode in {1, 5} ==> ExposureFor(Some(mode), timings) == Ok(Some(timings.0))
    ensures mode == 2 ==> ExposureFor(Some(mode), timings) == Ok(Some(timings.1))
    ensures mode in {3, 4} ==> ExposureFor(Some(mode), timings) == Ok(Some(timings.2))
  {
  }

  /** The lock-related state of a session and its driver at one moment. */
  datatype LockView = LockView(lockOps: nat, selects: nat, hasLock: bool)

  class Camera {
    const handle: Handle
    /** The only camera in its process: no locking and no camera selection. */
    const singleton: bool
    const dll: Dll
    var hasLock: bool

    var enabled: bool
    var ready: bool
    var armed: bool
    /** Exposures fetched since the camera was last armed. */
    var count: int
    var settings: SettingMap
    /** `None` until set_acquisition_mode runs: the constructor assigns a misspelt attribute. */
    var acquisitionMode: Option<int>
    var nx: Option<int>
    var ny: Option<int>
    /** `caps.ulSetFunctions` and `caps.ulCameraType`. */
    var setFunctions: nat
    var cameraType: nat
    var tMin: int
    var tMax: int
    var temperatureSetPoint: int
    var temperatureState: Option<int>

    /** The driver's trace is disciplined; a singleton never holds the lock; a guarded
        session holds it exactly when it is taken, since sessions run one at a time. */
    ghost predicate Valid()
      reads this, dll
    {
      dll.Valid() && (singleton ==> !hasLock) && (!singleton ==> (hasLock <==> dll.locked))
    }

    /** Whether the driver returns, rather than raises, on this call. */
    predicate Returns(fn: Fn) {
      !dll.answer(fn).Raised?
    }

    /** Whether entering `with_camera` succeeds: a singleton never selects. */
    predicate SelectOk() {
      singleton || Returns(SetCurrentCamera(handle))
    }

    /** The driver accepts each call make_safe makes for the current capabilities. */
    predicate SafeOk(setFunctions: nat, cameraType: nat) {
      (AndorSdk.HasBit(setFunctions, AndorSdk.AC_SETFUNCTION_EMCCDGAIN_BIT) ==> Returns(SetEMCCDGain(0)))
      && (cameraType in CONVENTIONAL_AMPLIFIER_TYPES ==> Returns(SetOutputAmplifier(1)))
    }

    /** The call a method makes once `with_camera` let it in. */
    function Attempted(fn: Fn): seq<Fn> {
      if SelectOk() then [fn] else []
    }

    /** enable's cooling calls stop at the first that raises: the fan mode, the range, the
        set point when a target is given, then the cooler. */
    lemma UptoCool(s: SettingMap)
      ensures var fan, range := SetFanMode(FanModeFor(s)), GetTemperatureRange;
        Upto(dll.answer, CoolCalls(s)) ==
          if !Returns(fan) then [fan]
          else if !Returns(range) then [fan, range]
          else if TargetTemperature(s) != VNone && !Returns(SetTemperature(SetPointFor(TargetTemperature(s))))
          then [fan, range, SetTemperature(SetPointFor(TargetTemperature(s)))]
          else CoolCalls(s)
    {
      var head := [SetFanMode(FanModeFor(s)), GetTemperatureRange];
      var target := if TargetTemperature(s) != VNone then [SetTemperature(SetPointFor(TargetTemperature(s)))] else [];
      assert CoolCalls(s) == head + (target + [CoolerON]);
      UptoPair(dll.answer, head[0], head[1]);
      UptoAppend(dll.answer, head, target + [CoolerON]);
      UptoAppend(dll.answer, target, [CoolerON]);
      UptoAppend(dll.answer, [CoolerON], []);
      UptoAppend(dll.answer, target, []);
      assert [CoolerON] + [] == [CoolerON] && target + [] == target;
    }

    /** make_safe's calls stop at the gain when it raises. */
    lemma UptoSafe(setFunctions: nat, cameraType: nat)
      ensures var gain := if AndorSdk.HasBit(setFunctions, AndorSdk.AC_SETFUNCTION_EMCCDGAIN_BIT) then [SetEMCCDGain(0)] else [];
        var amp := if cameraType in CONVENTIONAL_AMPLIFIER_TYPES then [SetOutputAmplifier(1)] else [];
        Upto(dll.answer, SafeCalls(setFunctions, cameraType)) == if AllReturn(dll.answer, gain) then gain + amp else gain
    {
      var gain := if AndorSdk.HasBit(setFunctions, AndorSdk.AC_SETFUNCTION_EMCCDGAIN_BIT) then [SetEMCCDGain(0)] else [];
      var amp := if cameraType in CONVENTIONAL_AMPLIFIER_TYPES then [SetOutputAmplifier(1)] else [];
      UptoAppend(dll.answer, gain, amp);
      UptoAppend(dll.answer, amp, []);
      UptoAppend(dll.answer, gain, []);
      assert amp + [] == amp && gain + [] == gain;
    }

    /** `abort()`, falling back to `Initialize('')`, as enable and update_settings start. */
    predicate RecoveryOk() {
      Returns(AbortAcquisition) || Returns(Initialize)
    }

    function RecoveryCalls(): seq<Fn> {
      [AbortAcquisition] + if Returns(AbortAcquisition) then [] else [Initialize]
    }

    /** The vertical shift speed index the driver recommends. */
    function VsIndex(): int {
      Int32(dll.answer(GetFastestRecommendedVSSpeed).Out(0))
    }

    /** The vertical shift speed the driver writes beside the index, a `c_float` kept as the
        number written. */
    function VsSpeed(): int {
      dll.answer(GetFastestRecommendedVSSpeed).Out(1)
    }

    predicate VsOk() {
      Returns(GetFastestRecommendedVSSpeed) && Returns(SetVSSpeed(VsIndex()))
    }

    function VsCalls(): seq<Fn> {
      [GetFastestRecommendedVSSpeed, SetVSSpeed(VsIndex())]
    }

    /** The temperature status is DRV_TEMP_STABILIZED. */
    predicate Stabilized() {
      dll.answer(GetTemperature).Status() == AndorSdk.DRV_TEMP_STABILIZED
    }

    function RangeMin(): int {
      Int32(dll.answer(GetTemperatureRange).Out(0))
    }

    function RangeMax(): int {
      Int32(dll.answer(GetTemperatureRange).Out(1))
    }

    /** The set point enable programs for a target temperature. */
    function SetPointFor(target: Value): int
      requires target != VNone
    {
      Clamp(RangeMin(), RangeMax(), IntCast(target).value)
    }

    /** enable's cooling calls are accepted: fan mode, temperature range, the set point when a
        target is given, and the cooler. */
    predicate CoolOk(s: SettingMap) {
      Returns(SetFanMode(FanModeFor(s))) && Returns(GetTemperatureRange)
      && (TargetTemperature(s) != VNone ==> Returns(SetTemperature(SetPointFor(TargetTemperature(s)))))
      && Returns(CoolerON)
    }

    /** enable got as far as reading the temperature range. */
    predicate Ranged(s: SettingMap) {
      Returns(SetFanMode(FanModeFor(s))) && Returns(GetTemperatureRange)
    }

    function CoolCalls(s: SettingMap): seq<Fn> {
      [SetFanMode(FanModeFor(s)), GetTemperatureRange]
      + (if TargetTemperature(s) != VNone then [SetTemperature(SetPointFor(TargetTemperature(s)))] else [])
      + [CoolerON]
    }

    /** Everything enable does before it calls update_settings succeeds. */
    predicate PreludeOk(s: SettingMap) {
      RecoveryOk() && Returns(GetDetector) && Returns(GetCapabilities) && CoolOk(s)
    }

    /** update_settings succeeds, from held settings `mine` and incoming `theirs`. */
    predicate UpdateOk(mine: SettingMap, theirs: SettingMap, init: bool) {
      RecoveryOk() && SettersSucceed(UpdateKeys(mine, theirs, init), Merge(mine, theirs), dll.answer) && VsOk()
    }

    /** Everything enable does after update_settings succeeds. */
    predicate FinishOk() {
      Returns(SetAcquisitionMode(1)) && Returns(SetTriggerMode(1)) && VsOk()
    }

    /** enable succeeds, from held settings `mine` and incoming `theirs`. */
    predicate EnableOk(mine: SettingMap, theirs: SettingMap) {
      PreludeOk(theirs) && UpdateOk(mine, theirs, true) && FinishOk()
    }

    ghost function Snap(): LockView
      reads this, dll
    {
      LockView(dll.lockOps, dll.selects, hasLock)
    }

    /** What every method keeps, from the state `s` it started in: validity; a singleton takes
        no lock and selects no camera; in a guarded session a top-level call, and any call that
        did not succeed (`ok` false), leaves the lock free; a nested call that succeeded keeps
        the caller's lock without touching it. */
    ghost predicate Kept(s: LockView, ok: bool)
      reads this, dll
    {
      Valid()
      && (singleton ==> dll.lockOps == s.lockOps && dll.selects == s.selects)
      && (!singleton && (!s.hasLock || !ok) ==> !hasLock && !dll.locked)
      && (!singleton && s.hasLock && ok ==> hasLock && dll.locked && dll.lockOps == s.lockOps)
    }

    /** What the body of a `with_camera` method keeps, from the state `s` it started in:
        validity; a singleton takes no lock and selects no camera; when `ok`, a guarded
        session still holds the lock, untouched. */
    ghost predicate Within(s: LockView, ok: bool)
      reads this, dll
    {
      Valid()
      && (singleton ==> dll.lockOps == s.lockOps && dll.selects == s.selects)
      && (!singleton && ok ==> hasLock && dll.locked && dll.lockOps == s.lockOps)
    }

    constructor (handle: Handle, singleton: bool, dll: Dll)
      requires dll.Valid() && (!singleton ==> !dll.locked)
      ensures Valid() && !hasLock
      ensures this.handle == handle && this.singleton == singleton && this.dll == dll
      ensures !enabled && !ready && !armed && count == 0 && settings == map[]
      ensures acquisitionMode == None && nx == None && ny == None
      ensures setFunctions == 0 && cameraType == 0
      ensures tMin == 0 && tMax == 0 && temperatureSetPoint == 0 && temperatureState == None
    {
      this.handle, this.singleton, this.dll := handle, singleton, dll;
      hasLock := false;
      enabled, ready, armed, count := false, false, false, 0;
      settings, acquisitionMode, nx, ny := map[], None, None, None;
      setFunctions, cameraType := 0, 0;
      tMin, tMax, temperatureSetPoint, temperatureState := 0, 0, 0, None;
    }

    /** Entering `with_camera`: a guarded session takes the lock unless it holds it already,
        then selects its camera. */
    method Enter() returns (had: bool, out: Outcome)
      requires Valid()
      modifies this`hasLock, dll
      ensures Valid() && had == old(hasLock)
      ensures out == if SelectOk() then Pass else Fail(DriverFault)
      ensures dll.calls == old(dll.calls)
      ensures singleton ==>
        hasLock == old(hasLock) && dll.lockOps == old(dll.lockOps)
        && dll.selects == old(dll.selects) && dll.locked == old(dll.locked) && dll.current == old(dll.current)
      ensures !singleton ==>
        hasLock && dll.locked && dll.selects == old(dll.selects) + 1
        && dll.lockOps == old(dll.lockOps) + (if had then 0 else 1)
      ensures !singleton && out.Pass? ==> dll.current == Some(handle)
    {
      had := hasLock;
      out := Pass;
      if !singleton {
        if !had {
          dll.Acquire();
          hasLock := true;
        }
        var r := dll.Call(SetCurrentCamera(handle), Session(handle, true, true));
        if r.Raised? {
          out := Fail(DriverFault);
        }
      }
    }

    /** Leaving `with_camera`: after a raise the lock is released whenever it is held; after a
        normal return only by the call that took it. */
    method Leave(had: bool, raised: bool)
      requires Valid()
      modifies this`hasLock, dll
      ensures Valid() && dll.calls == old(dll.calls) && dll.selects == old(dll.selects)
      ensures dll.current == old(dll.current) && dll.lockOps <= old(dll.lockOps) + 1
      ensures singleton ==> hasLock == old(hasLock) && dll.locked == old(dll.locked) && dll.lockOps == old(dll.lockOps)
      ensures !singleton && (raised || !had) ==>
        !hasLock && !dll.locked && dll.lockOps == old(dll.lockOps) + (if old(dll.locked) then 1 else 0)
      ensures !singleton && !raised && had ==>
        hasLock == old(hasLock) && dll.locked == old(dll.locked) && dll.lockOps == old(dll.lockOps)
    {
      if !singleton && (raised || !had) && dll.locked {
        dll.Release();
        hasLock := false;
      }
    }

    /** A call straight into the driver, as the session's methods make once inside `with_camera`. */
    method Raw(fn: Fn) returns (r: Reply)
      requires Valid() && !fn.SetCurrentCamera?
      requires !singleton ==> hasLock && dll.locked && dll.current == Some(handle)
      modifies dll
      ensures Valid() && r == dll.answer(fn) && dll.calls == old(dll.calls) + [fn]
      ensures dll.lockOps == old(dll.lockOps) && dll.selects == old(dll.selects)
      ensures dll.locked == old(dll.locked) && dll.current == old(dll.current)
    {
      r := dll.Call(fn, Session(handle, !singleton, hasLock && dll.locked));
    }

    /** A driver function installed as a method by CameraMeta: `with_camera` around the call. */
    method Wrapped(fn: Fn) returns (r: Reply)
      requires Valid() && !fn.SetCurrentCamera?
      modifies this`hasLock, dll
      ensures Kept(old(Snap()), !r.Raised?)
      ensures r == if SelectOk() then dll.answer(fn) else Raised
      ensures dll.calls == old(dll.calls) + Attempted(fn)
      ensures !singleton && !old(hasLock) ==> dll.lockOps == old(dll.lockOps) + 2
    {
      var had, out := Enter();
      if out.Fail? {
        Leave(had, true);
        return Raised;
      }
      r := Raw(fn);
      Leave(had, r.Raised?);
    }

    /** `abort`. */
    method Abort() returns (out: Outcome)
      requires Valid()
      modifies this`hasLock, this`ready, dll
      ensures out.Fail? ==> out == Fail(DriverFault)
      ensures Kept(old(Snap()), out.Pass?)
      ensures out.Pass? <==> SelectOk() && Returns(AbortAcquisition)
      ensures ready == if out.Pass? then false else old(ready)
      ensures dll.calls == old(dll.calls) + Attempted(AbortAcquisition)
    {
      var had;
      had, out := Enter();
      if out.Pass? {
        var r := Wrapped(AbortAcquisition);
        if r.Raised? {
          out := Fail(DriverFault);
        } else {
          ready := false;
        }
      }
      Leave(had, out.Fail?);
    }

    /** `is_ready`: ready means the temperature is stable and the camera is enabled. */
    method IsReady() returns (r: Result<bool>)
      requires Valid()
      modifies this`hasLock, this`ready, dll
      ensures Kept(old(Snap()), r.Ok?)
      ensures r.Ok? <==> SelectOk() && Returns(GetTemperature)
      ensures r.Ok? ==> r.value == (Stabilized() && enabled)
      ensures ready == if r.Ok? then r.value else old(ready)
      ensures dll.calls == old(dll.calls) + Attempted(GetTemperature)
    {
      var had, out := Enter();
      if out.Fail? {
        Leave(had, true);
        return Raise(DriverFault);
      }
      var status := Wrapped(GetTemperature);
      if status.Raised? {
        Leave(had, true);
        return Raise(DriverFault);
      }
      ready := status.Status() == AndorSdk.DRV_TEMP_STABILIZED && enabled;
      r := Ok(ready);
      Leave(had, false);
    }

    /** `arm`: refuses before touching the shutter unless ready; then opens the shutter,
        resets the count, sets armed and starts the acquisition. */
    method Arm() returns (out: Outcome)
      requires Valid()
      modifies this`hasLock, this`ready, this`count, this`armed, dll
      ensures Kept(old(Snap()), out.Pass?)
      ensures out.Pass? <==>
        SelectOk() && Returns(GetTemperature) && Stabilized() && old(enabled)
        && Returns(SetShutter(1, 1, 1, 1)) && Returns(StartAcquisition)
      ensures SelectOk() && Returns(GetTemperature) && !(Stabilized() && old(enabled)) ==>
        out == Fail(Failure("Camera not ready.")) && dll.calls == old(dll.calls) + [GetTemperature]
      ensures out.Pass? ==>
        dll.calls == old(dll.calls) + [GetTemperature, SetShutter(1, 1, 1, 1), StartAcquisition]
      ensures ready == if SelectOk() && Returns(GetTemperature) then Stabilized() && old(enabled) else old(ready)
      ensures var shutterOpen := SelectOk() && Returns(GetTemperature) && Stabilized() && old(enabled)
                            && Returns(SetShutter(1, 1, 1, 1));
        count == (if shutterOpen then 0 else old(count)) && armed == (shutterOpen || old(armed))
    {
      var had;
      had, out := Enter();
      if out.Fail? {
        Leave(had, true);
        return;
      }
      var isReady := IsReady();
      if isReady.Raise? {
        out := Fail(isReady.error);
        Leave(had, true);
        return;
      }
      if !isReady.value {
        out := Fail(Failure("Camera not ready."));
        Leave(had, true);
        return;
      }
      var r := Wrapped(SetShutter(1, 1, 1, 1));
      if r.Raised? {
        out := Fail(DriverFault);
        Leave(had, true);
        return;
      }
      count := 0;
      armed := true;
      r := Wrapped(StartAcquisition);
      if r.Raised? {
        out := Fail(DriverFault);
      }
      Leave(had, out.Fail?);
    }

    /** `make_safe`: EM gain 0 on cameras that can set it, the conventional amplifier on the
        camera types that have one. */
    method MakeSafe() returns (out: Outcome)
      requires Valid()
      modifies this`hasLock, dll
      ensures Kept(old(Snap()), out.Pass?)
      ensures out.Pass? <==> SelectOk() && SafeOk(setFunctions, cameraType)
      ensures out.Pass? ==> dll.calls == old(dll.calls) + SafeCalls(setFunctions, cameraType)
      ensures out.Fail? ==> out == Fail(DriverFault)
      ensures dll.calls == old(dll.calls) + if SelectOk() then Upto(dll.answer, SafeCalls(setFunctions, cameraType)) else []
    {
      var had;
      had, out := Enter();
      if out.Fail? {
        Leave(had, true);
        return;
      }
      UptoSafe(setFunctions, cameraType);
      if AndorSdk.HasBit(setFunctions, AndorSdk.AC_SETFUNCTION_EMCCDGAIN_BIT) {
        var r := Wrapped(SetEMCCDGain(0));
        if r.Raised? {
          out := Fail(DriverFault);
          Leave(had, true);
          return;
        }
      }
      if cameraType in CONVENTIONAL_AMPLIFIER_TYPES {
        var r := Wrapped(SetOutputAmplifier(1));
        if r.Raised? {
          out := Fail(DriverFault);
          Leave(had, true);
          return;
        }
      }
      Leave(had, false);
    }

    /** `disable`: clears enabled, tries to abort (a failure is ignored), then make_safe. */
    method Disable() returns (out: Outcome)
      requires Valid()
      modifies this`hasLock, this`enabled, this`ready, dll
      ensures out.Fail? ==> out == Fail(DriverFault)
      ensures Kept(old(Snap()), out.Pass? && Returns(AbortAcquisition))
      ensures out.Pass? <==> SelectOk() && SafeOk(setFunctions, cameraType)
      ensures out.Pass? ==>
        dll.calls == old(dll.calls) + [AbortAcquisition] + SafeCalls(setFunctions, cameraType)
      ensures dll.calls == old(dll.calls) + if SelectOk() then [AbortAcquisition] + Upto(dll.answer, SafeCalls(setFunctions, cameraType)) else []
      ensures enabled == if SelectOk() then false else old(enabled)
      ensures ready == if SelectOk() && Returns(AbortAcquisition) then false else old(ready)
    {
      var had;
      had, out := Enter();
      if out.Fail? {
        Leave(had, true);
        return;
      }
      enabled := false;
      var aborted := Abort();
      out := MakeSafe();
      Leave(had, out.Fail?);
    }

    /** `__exit__`: shuts the camera down (a failure is ignored) and clears all three flags. */
    method Exit() returns (out: Outcome)
      requires Valid()
      modifies this`hasLock, this`enabled, this`armed, this`ready, dll
      ensures Kept(old(Snap()), out.Pass? && Returns(ShutDown))
      ensures out.Pass? <==> SelectOk()
      ensures dll.calls == old(dll.calls) + Attempted(ShutDown)
      ensures out.Pass? ==> !enabled && !armed && !ready
      ensures out.Fail? ==> enabled == old(enabled) && armed == old(armed) && ready == old(ready)
    {
      var had;
      had, out := Enter();
      if out.Pass? {
        var r := Wrapped(ShutDown);
        enabled, armed, ready := false, false, false;
      }
      Leave(had, out.Fail?);
    }

    /** `set_acquisition_mode`. */
    method SelectAcquisitionMode(mode: int) returns (out: Outcome)
      requires Valid()
      modifies this`hasLock, this`acquisitionMode, dll
      ensures out.Fail? ==> out == Fail(DriverFault)
      ensures Kept(old(Snap()), out.Pass?)
      ensures out.Pass? <==> SelectOk() && Returns(SetAcquisitionMode(mode))
      ensures acquisitionMode == if out.Pass? then Some(mode) else old(acquisitionMode)
      ensures dll.calls == old(dll.calls) + Attempted(SetAcquisitionMode(mode))
    {
      var had;
      had, out := Enter();
      if out.Pass? {
        var r := Wrapped(SetAcquisitionMode(mode));
        if r.Raised? {
          out := Fail(DriverFault);
        } else {
          acquisitionMode := Some(mode);
        }
      }
      Leave(had, out.Fail?);
    }

    /** `get_acquisition_timings`: (exposure, accumulate, kinetic), kept opaque. */
    method AcquisitionTimings() returns (r: Result<(int, int, int)>)
      requires Valid()
      modifies this`hasLock, dll
      ensures Kept(old(Snap()), r.Ok?)
      ensures var a := dll.answer(GetAcquisitionTimings);
        r == if SelectOk() && Returns(GetAcquisitionTimings) then Ok((a.Out(0), a.Out(1), a.Out(2)))
             else Raise(DriverFault)
      ensures dll.calls == old(dll.calls) + Attempted(GetAcquisitionTimings)
    {
      var had, out := Enter();
      if out.Fail? {
        Leave(had, true);
        return Raise(DriverFault);
      }
      var a := Raw(GetAcquisitionTimings);
      if a.Raised? {
        Leave(had, true);
        return Raise(DriverFault);
      }
      r := Ok((a.Out(0), a.Out(1), a.Out(2)));
      Leave(had, false);
    }

    /** `get_exposure_time`: the timing that belongs to the current acquisition mode. */
    method ExposureTime() returns (r: Result<Option<int>>)
      requires Valid()
      modifies this`hasLock, dll
      ensures Kept(old(Snap()), r.Ok?)
      ensures var a := dll.answer(GetAcquisitionTimings);
        r == if SelectOk() && Returns(GetAcquisitionTimings)
             then ExposureFor(acquisitionMode, (a.Out(0), a.Out(1), a.Out(2)))
             else Raise(DriverFault)
      ensures dll.calls == old(dll.calls) + Attempted(GetAcquisitionTimings)
    {
      var had, out := Enter();
      if out.Fail? {
        Leave(had, true);
        return Raise(DriverFault);
      }
      var timings := AcquisitionTimings();
      if timings.Raise? {
        Leave(had, true);
        return Raise(timings.error);
      }
      r := ExposureFor(acquisitionMode, timings.value);
      Leave(had, r.Raise?);
    }

    /** `get_camera_serial_number`. */
    method SerialNumber() returns (r: Result<int>)
      requires Valid()
      modifies this`hasLock, dll
      ensures Kept(old(Snap()), r.Ok?)
      ensures r == if SelectOk() && Returns(GetCameraSerialNumber)
                   then Ok(Int32(dll.answer(GetCameraSerialNumber).Out(0))) else Raise(DriverFault)
      ensures dll.calls == old(dll.calls) + Attempted(GetCameraSerialNumber)
    {
      var had, out := Enter();
      if out.Fail? {
        Leave(had, true);
        return Raise(DriverFault);
      }
      var a := Raw(GetCameraSerialNumber);
      if a.Raised? {
        Leave(had, true);
        return Raise(DriverFault);
      }
      r := Ok(Int32(a.Out(0)));
      Leave(had, false);
    }

    /** `get_temperature`: reads the temperature and records the status code. */
    method Temperature() returns (r: Result<int>)
      requires Valid()
      modifies this`hasLock, this`temperatureState, dll
      ensures Kept(old(Snap()), r.Ok?)
      ensures r == if SelectOk() && Returns(GetTemperature)
                   then Ok(Int32(dll.answer(GetTemperature).Out(0))) else Raise(DriverFault)
      ensures temperatureState == if r.Ok? then Some(dll.answer(GetTemperature).Status()) else old(temperatureState)
      ensures dll.calls == old(dll.calls) + Attempted(GetTemperature)
    {
      var had, out := Enter();
      if out.Fail? {
        Leave(had, true);
        return Raise(DriverFault);
      }
      var a := Raw(GetTemperature);
      if a.Raised? {
        Leave(had, true);
        return Raise(DriverFault);
      }
      temperatureState := Some(a.Status());
      r := Ok(Int32(a.Out(0)));
      Leave(had, false);
    }

    /** `get_detector`: the detector size in pixels. */
    method Detector() returns (out: Outcome)
      requires Valid()
      modifies this`hasLock, this`nx, this`ny, dll
      ensures out.Fail? ==> out == Fail(DriverFault)
      ensures Kept(old(Snap()), out.Pass?)
      ensures out.Pass? <==> SelectOk() && Returns(GetDetector)
      ensures nx == if out.Pass? then Some(Int32(dll.answer(GetDetector).Out(0))) else old(nx)
      ensures ny == if out.Pass? then Some(Int32(dll.answer(GetDetector).Out(1))) else old(ny)
      ensures dll.calls == old(dll.calls) + Attempted(GetDetector)
    {
      var had;
      had, out := Enter();
      if out.Pass? {
        var a := Raw(GetDetector);
        if a.Raised? {
          out := Fail(DriverFault);
        } else {
          nx, ny := Some(Int32(a.Out(0))), Some(Int32(a.Out(1)));
        }
      }
      Leave(had, out.Fail?);
    }

    /** `get_capabilities`: the set-function flags and the camera type. */
    method Capabilities() returns (out: Outcome)
      requires Valid()
      modifies this`hasLock, this`setFunctions, this`cameraType, dll
      ensures out.Fail? ==> out == Fail(DriverFault)
      ensures Kept(old(Snap()), out.Pass?)
      ensures out.Pass? <==> SelectOk() && Returns(GetCapabilities)
      ensures setFunctions == if out.Pass? then UInt32(dll.answer(GetCapabilities).Out(0)) else old(setFunctions)
      ensures cameraType == if out.Pass? then UInt32(dll.answer(GetCapabilities).Out(1)) else old(cameraType)
      ensures dll.calls == old(dll.calls) + Attempted(GetCapabilities)
    {
      var had;
      had, out := Enter();
      if out.Pass? {
        var a := Raw(GetCapabilities);
        if a.Raised? {
          out := Fail(DriverFault);
        } else {
          setFunctions, cameraType := UInt32(a.Out(0)), UInt32(a.Out(1));
        }
      }
      Leave(had, out.Fail?);
    }

    /** `get_fastest_recommended_vs_speed`: the recommended vertical shift speed index and the speed. */
    method FastestVsSpeed() returns (r: Result<(int, int)>)
      requires Valid()
      modifies this`hasLock, dll
      ensures Kept(old(Snap()), r.Ok?)
      ensures r == if SelectOk() && Returns(GetFastestRecommendedVSSpeed) then Ok((VsIndex(), VsSpeed()))
                   else Raise(DriverFault)
      ensures dll.calls == old(dll.calls) + Attempted(GetFastestRecommendedVSSpeed)
    {
      var had, out := Enter();
      if out.Fail? {
        Leave(had, true);
        return Raise(DriverFault);
      }
      var a := Raw(GetFastestRecommendedVSSpeed);
      if a.Raised? {
        Leave(had, true);
        return Raise(DriverFault);
      }
      r := Ok((Int32(a.Out(0)), a.Out(1)));
      Leave(had, false);
    }

    /** `set_fastest_vs_speed`: applies the recommended vertical shift speed and returns the speed. */
    method UseFastestVsSpeed() returns (r: Result<int>)
      requires Valid()
      modifies this`hasLock, dll
      ensures Kept(old(Snap()), r.Ok?)
      ensures r == if SelectOk() && VsOk() then Ok(VsSpeed()) else Raise(DriverFault)
      ensures r.Ok? ==> dll.calls == old(dll.calls) + VsCalls()
      ensures dll.calls == old(dll.calls) + if SelectOk() then Upto(dll.answer, VsCalls()) else []
    {
      var had, out := Enter();
      if out.Fail? {
        Leave(had, true);
        return Raise(DriverFault);
      }
      UptoPair(dll.answer, GetFastestRecommendedVSSpeed, SetVSSpeed(VsIndex()));
      var fastest := FastestVsSpeed();
      if fastest.Raise? {
        Leave(had, true);
        return Raise(fastest.error);
      }
      var applied := Wrapped(SetVSSpeed(fastest.value.0));
      if applied.Raised? {
        Leave(had, true);
        return Raise(DriverFault);
      }
      r := Ok(fastest.value.1);
      Leave(had, false);
    }

    /** The opening of enable and update_settings: abort, or failing that Initialize('');
        a failure of Initialize propagates. */
    method Recover() returns (out: Outcome)
      requires Valid() && SelectOk()
      modifies this`hasLock, this`ready, dll
      ensures out.Fail? ==> out == Fail(DriverFault)
      ensures Kept(old(Snap()), out.Pass? && Returns(AbortAcquisition))
      ensures out.Pass? <==> RecoveryOk()
      ensures dll.calls == old(dll.calls) + RecoveryCalls()
      ensures ready == if Returns(AbortAcquisition) then false else old(ready)
    {
      out := Abort();
      if out.Fail? {
        var r := Wrapped(Initialize);
        out := if r.Raised? then Fail(DriverFault) else Pass;
      }
    }

    /** One pass of update_settings' loop: a key without a setter is skipped; otherwise its
        value is cast as `SETTERS` says and the setter called, as a CameraMeta method. A failed
        cast leaves the lock as it was; a driver call that raised has released it. */
    method ApplySetter(k: string, merged: SettingMap) returns (out: Outcome)
      requires Valid() && SelectOk() && k in merged
      modifies this`hasLock, dll
      ensures out.Fail? ==> out.error in {DriverFault, TypeError}
      ensures Kept(old(Snap()), out != Fail(DriverFault))
      ensures out.Pass? <==> KeyOk(k, merged, dll.answer)
      ensures dll.calls == old(dll.calls) + KeyCall(k, merged)
    {
      if k !in SETTERS {
        return Pass;
      }
      var call := SetterCall(k, merged[k]);
      if call.Raise? {
        return Fail(call.error);
      }
      var r := Wrapped(call.value);
      out := if r.Raised? then Fail(DriverFault) else Pass;
    }

    /** The loop of update_settings over the walked keys, in no particular order; the first
        cast or call that raises ends it. */
    method ApplySetters(keys: set<string>, merged: SettingMap) returns (out: Outcome, ghost applied: seq<Fn>)
      requires Valid() && SelectOk() && keys <= merged.Keys
      modifies this`hasLock, dll
      ensures out.Fail? ==> out.error in {DriverFault, TypeError}
      ensures Kept(old(Snap()), out != Fail(DriverFault))
      ensures out.Pass? <==> SettersSucceed(keys, merged, dll.answer)
      ensures dll.calls == old(dll.calls) + applied
      ensures out.Pass? ==> multiset(applied) == SetterCalls(keys, merged)
      ensures multiset(applied) <= SetterCalls(keys, merged)
    {
      out, applied := Pass, [];
      var todo, done := keys, {};
      ghost var c0, s0, bad := dll.calls, Snap(), "";
      while todo != {} && out.Pass?
        invariant todo + done == keys && todo !! done
        invariant Kept(s0, out != Fail(DriverFault))
        invariant dll.calls == c0 + applied
        invariant out.Pass? ==> Walked(applied, done, merged, dll.answer)
        invariant out.Fail? ==> bad in keys && !KeyOk(bad, merged, dll.answer)
        invariant out.Fail? ==> out.error in {DriverFault, TypeError}
        invariant multiset(applied) == SetterCalls(done, merged)
        decreases todo
      {
        var k :| k in todo;
        out := WalkKey(k, merged, s0, c0, applied, done);
        SetterCallsStep(done, k, merged);
        applied, bad := applied + KeyCall(k, merged), k;
        todo, done := todo - {k}, done + {k};
      }
      SetterCallsGrow(done, keys, merged);
    }

    /** One key of the loop, from a state the loop has kept since `s0`, after the calls
        `applied` for the keys `done`. */
    method WalkKey(k: string, merged: SettingMap, ghost s0: LockView, ghost c0: seq<Fn>,
                   ghost applied: seq<Fn>, ghost done: set<string>) returns (out: Outcome)
      requires Valid() && SelectOk() && k in merged && k !in done
      requires Kept(s0, true) && dll.calls == c0 + applied && Walked(applied, done, merged, dll.answer)
      modifies this`hasLock, dll
      ensures out.Fail? ==> out.error in {DriverFault, TypeError}
      ensures Kept(s0, out != Fail(DriverFault))
      ensures out.Pass? <==> KeyOk(k, merged, dll.answer)
      ensures dll.calls == c0 + (applied + KeyCall(k, merged))
      ensures out.Pass? ==> Walked(applied + KeyCall(k, merged), done + {k}, merged, dll.answer)
    {
      out := ApplySetter(k, merged);
      Assoc(c0, applied, KeyCall(k, merged));
      if out.Pass? {
        WalkStep(applied, done, k, merged, dll.answer);
      }
    }

    /** `update_settings`: the body below inside `with_camera`. */
    method UpdateSettings(theirs: SettingMap, init: bool) returns (out: Outcome, ghost applied: seq<Fn>)
      requires Valid()
      modifies this`hasLock, this`enabled, this`ready, this`settings, dll
      ensures out.Fail? ==> out.error in {DriverFault, TypeError}
      ensures Kept(old(Snap()), out.Pass? && Returns(AbortAcquisition))
      ensures out.Pass? <==> SelectOk() && UpdateOk(old(settings), theirs, init)
      ensures out.Pass? ==> dll.calls == old(dll.calls) + RecoveryCalls() + applied + VsCalls()
      ensures out.Pass? ==>
        multiset(applied) == SetterCalls(UpdateKeys(old(settings), theirs, init), Merge(old(settings), theirs))
      ensures !SelectOk() ==> dll.calls == old(dll.calls) && applied == []
      ensures SelectOk() && !RecoveryOk() ==> dll.calls == old(dll.calls) + RecoveryCalls() && applied == []
      ensures SelectOk() && RecoveryOk()
              && !SettersSucceed(UpdateKeys(old(settings), theirs, init), Merge(old(settings), theirs), dll.answer) ==>
        dll.calls == old(dll.calls) + RecoveryCalls() + applied
      ensures SelectOk() && RecoveryOk()
              && SettersSucceed(UpdateKeys(old(settings), theirs, init), Merge(old(settings), theirs), dll.answer) ==>
        dll.calls == old(dll.calls) + RecoveryCalls() + applied + Upto(dll.answer, VsCalls())
      ensures multiset(applied) <= SetterCalls(UpdateKeys(old(settings), theirs, init), Merge(old(settings), theirs))
      ensures settings == if SelectOk() && RecoveryOk() then Merge(old(settings), theirs) else old(settings)
      ensures enabled == if SelectOk() then out.Pass? else old(enabled)
      ensures ready == if SelectOk() && Returns(AbortAcquisition) then false else old(ready)
    {
      var had;
      had, out := Enter();
      if out.Fail? {
        Leave(had, true);
        return out, [];
      }
      out, applied := UpdateSettingsBody(theirs, init);
      Leave(had, out.Fail?);
    }

    /** The body of update_settings: clears enabled, recovers, merges the incoming settings,
        re-applies the walked keys through their setters, recomputes the vertical shift speed
        and sets enabled. */
    method UpdateSettingsBody(theirs: SettingMap, init: bool) returns (out: Outcome, ghost applied: seq<Fn>)
      requires Valid() && SelectOk() && (!singleton ==> hasLock)
      modifies this`hasLock, this`enabled, this`ready, this`settings, dll
      ensures out.Fail? ==> out.error in {DriverFault, TypeError}
      ensures Within(old(Snap()), out.Pass? && Returns(AbortAcquisition))
      ensures !singleton && !Returns(AbortAcquisition) ==> !hasLock && !dll.locked
      ensures out.Pass? <==> UpdateOk(old(settings), theirs, init)
      ensures out.Pass? ==> dll.calls == old(dll.calls) + RecoveryCalls() + applied + VsCalls()
      ensures out.Pass? ==>
        multiset(applied) == SetterCalls(UpdateKeys(old(settings), theirs, init), Merge(old(settings), theirs))
      ensures !RecoveryOk() ==> dll.calls == old(dll.calls) + RecoveryCalls() && applied == []
      ensures RecoveryOk() && !SettersSucceed(UpdateKeys(old(settings), theirs, init), Merge(old(settings), theirs), dll.answer) ==>
        dll.calls == old(dll.calls) + RecoveryCalls() + applied
      ensures RecoveryOk() && SettersSucceed(UpdateKeys(old(settings), theirs, init), Merge(old(settings), theirs), dll.answer) ==>
        dll.calls == old(dll.calls) + RecoveryCalls() + applied + Upto(dll.answer, VsCalls())
      ensures multiset(applied) <= SetterCalls(UpdateKeys(old(settings), theirs, init), Merge(old(settings), theirs))
      ensures settings == if RecoveryOk() then Merge(old(settings), theirs) else old(settings)
      ensures enabled == out.Pass?
      ensures ready == if Returns(AbortAcquisition) then false else old(ready)
    {
      applied := [];
      enabled := false;
      out := Recover();
      if out.Pass? {
        out, applied := Reapply(theirs, init);
      }
    }

    /** update_settings once recovered: merges the incoming settings, re-applies the walked
        keys and recomputes the vertical shift speed; enabled is set when all of it went through. */
    method Reapply(theirs: SettingMap, init: bool) returns (out: Outcome, ghost applied: seq<Fn>)
      requires Valid() && SelectOk() && !enabled
      modifies this`hasLock, this`enabled, this`settings, dll
      ensures out.Fail? ==> out.error in {DriverFault, TypeError}
      ensures Within(old(Snap()), out.Pass? && old(hasLock))
      ensures !singleton && !old(hasLock) ==> !hasLock && !dll.locked
      ensures out.Pass? <==>
        SettersSucceed(UpdateKeys(old(settings), theirs, init), Merge(old(settings), theirs), dll.answer) && VsOk()
      ensures out.Pass? ==> dll.calls == old(dll.calls) + applied + VsCalls()
      ensures out.Pass? ==>
        multiset(applied) == SetterCalls(UpdateKeys(old(settings), theirs, init), Merge(old(settings), theirs))
      ensures !SettersSucceed(UpdateKeys(old(settings), theirs, init), Merge(old(settings), theirs), dll.answer) ==>
        dll.calls == old(dll.calls) + applied
      ensures SettersSucceed(UpdateKeys(old(settings), theirs, init), Merge(old(settings), theirs), dll.answer) ==>
        dll.calls == old(dll.calls) + applied + Upto(dll.answer, VsCalls())
      ensures multiset(applied) <= SetterCalls(UpdateKeys(old(settings), theirs, init), Merge(old(settings), theirs))
      ensures settings == Merge(old(settings), theirs)
      ensures enabled == out.Pass?
    {
      var keys := UpdateKeys(settings, theirs, init);
      UpdateKeysInMerge(settings, theirs, init);
      settings := Merge(settings, theirs);
      out, applied := ApplySetters(keys, settings);
      if out.Pass? {
        var speed := UseFastestVsSpeed();
        out := if speed.Ok? then Pass else Fail(speed.error);
        enabled := out.Pass?;
      }
    }

    /** The temperature control part of enable: the fan mode for the cooling type, the
        temperature range, the target limited to that range when one is given, and the cooler. */
    method Cool(theirs: SettingMap) returns (out: Outcome)
      requires Valid() && SelectOk()
      modifies this`hasLock, this`tMin, this`tMax, this`temperatureSetPoint, dll
      ensures out.Fail? ==> out == Fail(DriverFault)
      ensures Kept(old(Snap()), out.Pass?)
      ensures out.Pass? <==> CoolOk(theirs)
      ensures out.Pass? ==> dll.calls == old(dll.calls) + CoolCalls(theirs)
      ensures dll.calls == old(dll.calls) + Upto(dll.answer, CoolCalls(theirs))
      ensures tMin == if Ranged(theirs) then RangeMin() else old(tMin)
      ensures tMax == if Ranged(theirs) then RangeMax() else old(tMax)
      ensures temperatureSetPoint == if Ranged(theirs) && TargetTemperature(theirs) != VNone
                                     then SetPointFor(TargetTemperature(theirs)) else old(temperatureSetPoint)
    {
      UptoCool(theirs);
      out := CoolRange(FanModeFor(theirs));
      if out.Pass? {
        out := SetTarget(TargetTemperature(theirs));
        if out.Pass? {
          var r := Wrapped(CoolerON);
          out := if r.Raised? then Fail(DriverFault) else Pass;
        }
      }
    }

    /** The fan mode, then the temperature range, which is recorded. */
    method CoolRange(fan: int) returns (out: Outcome)
      requires Valid() && SelectOk()
      modifies this`hasLock, this`tMin, this`tMax, dll
      ensures out.Fail? ==> out == Fail(DriverFault)
      ensures Kept(old(Snap()), out.Pass?)
      ensures out.Pass? <==> Returns(SetFanMode(fan)) && Returns(GetTemperatureRange)
      ensures out.Pass? ==> dll.calls == old(dll.calls) + [SetFanMode(fan), GetTemperatureRange]
      ensures dll.calls == old(dll.calls) + Upto(dll.answer, [SetFanMode(fan), GetTemperatureRange])
      ensures tMin == if out.Pass? then RangeMin() else old(tMin)
      ensures tMax == if out.Pass? then RangeMax() else old(tMax)
    {
      UptoPair(dll.answer, SetFanMode(fan), GetTemperatureRange);
      out := Fail(DriverFault);
      var r := Wrapped(SetFanMode(fan));
      if !r.Raised? {
        r := Wrapped(GetTemperatureRange);
        if !r.Raised? {
          tMin, tMax := Int32(r.Out(0)), Int32(r.Out(1));
          out := Pass;
        }
      }
    }

    /** The set point of enable, when a target is given: limited to the range just read. */
    method SetTarget(target: Value) returns (out: Outcome)
      requires Valid() && SelectOk() && tMin == RangeMin() && tMax == RangeMax()
      modifies this`hasLock, this`temperatureSetPoint, dll
      ensures out.Fail? ==> out == Fail(DriverFault)
      ensures Kept(old(Snap()), out.Pass?)
      ensures out.Pass? <==> (target != VNone ==> Returns(SetTemperature(SetPointFor(target))))
      ensures dll.calls == old(dll.calls) + if target != VNone then [SetTemperature(SetPointFor(target))] else []
      ensures temperatureSetPoint == if target != VNone then SetPointFor(target) else old(temperatureSetPoint)
    {
      out := Pass;
      if target != VNone {
        temperatureSetPoint := Clamp(tMin, tMax, IntCast(target).value);
        var r := Wrapped(SetTemperature(temperatureSetPoint));
        if r.Raised? {
          out := Fail(DriverFault);
        }
      }
    }

    /** `enable`: the body below inside `with_camera`. */
    method Enable(theirs: SettingMap) returns (out: Outcome, ghost applied: seq<Fn>)
      requires Valid()
      modifies this`hasLock, this`enabled, this`ready, this`settings, this`acquisitionMode,
        this`nx, this`ny, this`setFunctions, this`cameraType, this`tMin, this`tMax, this`temperatureSetPoint, dll
      ensures out.Fail? ==> out.error in {DriverFault, TypeError}
      ensures Kept(old(Snap()), out.Pass? && Returns(AbortAcquisition))
      ensures out.Pass? <==> SelectOk() && EnableOk(old(settings), theirs)
      ensures out.Pass? ==>
        dll.calls == old(dll.calls) + RecoveryCalls() + [GetDetector] + [GetCapabilities] + CoolCalls(theirs)
                     + RecoveryCalls() + applied + VsCalls() + [SetAcquisitionMode(1)] + [SetTriggerMode(1)] + VsCalls()
      ensures out.Pass? ==>
        multiset(applied) == SetterCalls(UpdateKeys(old(settings), theirs, true), Merge(old(settings), theirs))
      ensures enabled == if SelectOk() then PreludeOk(theirs) && UpdateOk(old(settings), theirs, true) else old(enabled)
      ensures settings == if SelectOk() && PreludeOk(theirs) then Merge(old(settings), theirs) else old(settings)
      ensures out.Pass? ==> acquisitionMode == Some(1)
    {
      var had;
      had, out := Enter();
      if out.Fail? {
        Leave(had, true);
        return out, [];
      }
      out, applied := EnableBody(theirs);
      Leave(had, out.Fail?);
    }

    /** The part of enable before update_settings: recover, read the detector size and the
        capabilities, then set up cooling. */
    method EnablePrelude(theirs: SettingMap) returns (out: Outcome)
      requires Valid() && SelectOk() && (!singleton ==> hasLock)
      modifies this`hasLock, this`ready, this`nx, this`ny, this`setFunctions, this`cameraType,
        this`tMin, this`tMax, this`temperatureSetPoint, dll
      ensures out.Fail? ==> out == Fail(DriverFault)
      ensures Within(old(Snap()), out.Pass? && Returns(AbortAcquisition))
      ensures !singleton && !Returns(AbortAcquisition) ==> !hasLock && !dll.locked
      ensures out.Pass? <==> PreludeOk(theirs)
      ensures out.Pass? ==>
        dll.calls == old(dll.calls) + RecoveryCalls() + [GetDetector] + [GetCapabilities] + CoolCalls(theirs)
      ensures !RecoveryOk() ==> dll.calls == old(dll.calls) + RecoveryCalls()
      ensures RecoveryOk() && !Returns(GetDetector) ==> dll.calls == old(dll.calls) + RecoveryCalls() + [GetDetector]
      ensures RecoveryOk() && Returns(GetDetector) && !Returns(GetCapabilities) ==>
        dll.calls == old(dll.calls) + RecoveryCalls() + [GetDetector] + [GetCapabilities]
      ensures RecoveryOk() && Returns(GetDetector) && Returns(GetCapabilities) ==>
        dll.calls == old(dll.calls) + RecoveryCalls() + [GetDetector] + [GetCapabilities] + Upto(dll.answer, CoolCalls(theirs))
      ensures ready == if Returns(AbortAcquisition) then false else old(ready)
      ensures out.Pass? ==>
        nx == Some(Int32(dll.answer(GetDetector).Out(0))) && ny == Some(Int32(dll.answer(GetDetector).Out(1)))
        && setFunctions == UInt32(dll.answer(GetCapabilities).Out(0))
        && cameraType == UInt32(dll.answer(GetCapabilities).Out(1))
        && tMin == RangeMin() && tMax == RangeMax()
        && temperatureSetPoint == if TargetTemperature(theirs) != VNone
                                  then SetPointFor(TargetTemperature(theirs)) else old(temperatureSetPoint)
    {
      out := Recover();
      if out.Pass? {
        out := Configure(theirs);
      }
    }

    /** enable once recovered: the detector size, the capabilities and cooling. */
    method Configure(theirs: SettingMap) returns (out: Outcome)
      requires Valid() && SelectOk()
      modifies this`hasLock, this`nx, this`ny, this`setFunctions, this`cameraType,
        this`tMin, this`tMax, this`temperatureSetPoint, dll
      ensures out.Fail? ==> out == Fail(DriverFault)
      ensures Kept(old(Snap()), out.Pass?)
      ensures out.Pass? <==> Returns(GetDetector) && Returns(GetCapabilities) && CoolOk(theirs)
      ensures out.Pass? ==> dll.calls == old(dll.calls) + [GetDetector] + [GetCapabilities] + CoolCalls(theirs)
      ensures !Returns(GetDetector) ==> dll.calls == old(dll.calls) + [GetDetector]
      ensures Returns(GetDetector) && !Returns(GetCapabilities) ==>
        dll.calls == old(dll.calls) + [GetDetector] + [GetCapabilities]
      ensures Returns(GetDetector) && Returns(GetCapabilities) ==>
        dll.calls == old(dll.calls) + [GetDetector] + [GetCapabilities] + Upto(dll.answer, CoolCalls(theirs))
      ensures out.Pass? ==>
        nx == Some(Int32(dll.answer(GetDetector).Out(0))) && ny == Some(Int32(dll.answer(GetDetector).Out(1)))
        && setFunctions == UInt32(dll.answer(GetCapabilities).Out(0))
        && cameraType == UInt32(dll.answer(GetCapabilities).Out(1))
        && tMin == RangeMin() && tMax == RangeMax()
        && temperatureSetPoint == if TargetTemperature(theirs) != VNone
                                  then SetPointFor(TargetTemperature(theirs)) else old(temperatureSetPoint)
    {
      out := Detector();
      if out.Pass? {
        out := Capabilities();
        if out.Pass? {
          out := Cool(theirs);
        }
      }
    }



    /** The part of enable after update_settings: single-scan acquisition, external
        triggering, and the recommended vertical shift speed. */
    method EnableFinish() returns (out: Outcome)
      requires Valid() && SelectOk()
      modifies this`hasLock, this`acquisitionMode, dll
      ensures out.Fail? ==> out == Fail(DriverFault)
      ensures Kept(old(Snap()), out.Pass?)
      ensures out.Pass? <==> FinishOk()
      ensures out.Pass? ==> dll.calls == old(dll.calls) + [SetAcquisitionMode(1)] + [SetTriggerMode(1)] + VsCalls()
      ensures !Returns(SetAcquisitionMode(1)) ==> dll.calls == old(dll.calls) + [SetAcquisitionMode(1)]
      ensures Returns(SetAcquisitionMode(1)) && !Returns(SetTriggerMode(1)) ==>
        dll.calls == old(dll.calls) + [SetAcquisitionMode(1)] + [SetTriggerMode(1)]
      ensures Returns(SetAcquisitionMode(1)) && Returns(SetTriggerMode(1)) ==>
        dll.calls == old(dll.calls) + [SetAcquisitionMode(1)] + [SetTriggerMode(1)] + Upto(dll.answer, VsCalls())
      ensures acquisitionMode == if Returns(SetAcquisitionMode(1)) then Some(1) else old(acquisitionMode)
    {
      out := SelectAcquisitionMode(1);
      if out.Fail? {
        return;
      }
      var r := Wrapped(SetTriggerMode(1));
      if r.Raised? {
        return Fail(DriverFault);
      }
      var speed := UseFastestVsSpeed();
      out := if speed.Ok? then Pass else Fail(speed.error);
    }

    /** The body of enable: clears enabled, recovers, reads the detector and its capabilities,
        sets up cooling, re-applies the held settings, selects single-scan mode and external
        triggering, recomputes the vertical shift speed and sets enabled. A failure after
        update_settings leaves enabled as update_settings set it. */
    method EnableBody(theirs: SettingMap) returns (out: Outcome, ghost applied: seq<Fn>)
      requires Valid() && SelectOk() && (!singleton ==> hasLock)
      modifies this`hasLock, this`enabled, this`ready, this`settings, this`acquisitionMode,
        this`nx, this`ny, this`setFunctions, this`cameraType, this`tMin, this`tMax, this`temperatureSetPoint, dll
      ensures out.Fail? ==> out.error in {DriverFault, TypeError}
      ensures Within(old(Snap()), out.Pass? && Returns(AbortAcquisition))
      ensures !singleton && !Returns(AbortAcquisition) ==> !hasLock && !dll.locked
      ensures out.Pass? <==> EnableOk(old(settings), theirs)
      ensures out.Pass? ==>
        dll.calls == old(dll.calls) + RecoveryCalls() + [GetDetector] + [GetCapabilities] + CoolCalls(theirs)
                     + RecoveryCalls() + applied + VsCalls() + [SetAcquisitionMode(1)] + [SetTriggerMode(1)] + VsCalls()
      ensures out.Pass? ==>
        multiset(applied) == SetterCalls(UpdateKeys(old(settings), theirs, true), Merge(old(settings), theirs))
      ensures enabled == (PreludeOk(theirs) && UpdateOk(old(settings), theirs, true))
      ensures settings == if PreludeOk(theirs) then Merge(old(settings), theirs) else old(settings)
      ensures out.Pass? ==> acquisitionMode == Some(1)
    {
      applied := [];
      enabled := false;
      out := EnablePrelude(theirs);
      if out.Pass? {
        out, applied := EnableRest(theirs);
      }
    }

    /** enable once prepared: update_settings with init, then the acquisition setup. */
    method EnableRest(theirs: SettingMap) returns (out: Outcome, ghost applied: seq<Fn>)
      requires Valid() && SelectOk()
      modifies this`hasLock, this`enabled, this`ready, this`settings, this`acquisitionMode, dll
      ensures out.Fail? ==> out.error in {DriverFault, TypeError}
      ensures Kept(old(Snap()), out.Pass? && Returns(AbortAcquisition))
      ensures out.Pass? <==> UpdateOk(old(settings), theirs, true) && FinishOk()
      ensures out.Pass? ==>
        dll.calls == old(dll.calls) + RecoveryCalls() + applied + VsCalls()
                     + [SetAcquisitionMode(1)] + [SetTriggerMode(1)] + VsCalls()
      ensures out.Pass? ==>
        multiset(applied) == SetterCalls(UpdateKeys(old(settings), theirs, true), Merge(old(settings), theirs))
      ensures enabled == UpdateOk(old(settings), theirs, true)
      ensures settings == if RecoveryOk() then Merge(old(settings), theirs) else old(settings)
      ensures out.Pass? ==> acquisitionMode == Some(1)
    {
      out, applied := UpdateSettings(theirs, true);
      if out.Pass? {
        out := EnableFinish();
        if out.Pass? {
          enabled := true;
        }
      }
    }

    /** enable as its opening comment means it: the client polls `enabled` until it is true, so
        a failure anywhere in the body leaves it false. The as-written code can leave it true
        (see TriggerFailureLeavesEnabled); here a raise from the body clears it. */
    method EnableIntended(theirs: SettingMap) returns (out: Outcome, ghost applied: seq<Fn>)
      requires Valid()
      modifies this`hasLock, this`enabled, this`ready, this`settings, this`acquisitionMode,
        this`nx, this`ny, this`setFunctions, this`cameraType, this`tMin, this`tMax, this`temperatureSetPoint, dll
      ensures Kept(old(Snap()), out.Pass? && Returns(AbortAcquisition))
      ensures out.Pass? <==> SelectOk() && EnableOk(old(settings), theirs)
      ensures enabled == if SelectOk() then out.Pass? else old(enabled)
      ensures settings == if SelectOk() && PreludeOk(theirs) then Merge(old(settings), theirs) else old(settings)
    {
      out, applied := Enable(theirs);
      if out.Fail? && SelectOk() {
        enabled := false;
      }
    }

    /** The driver refuses external triggering and accepts everything else. Then enable as
        written gets through update_settings, which sets `enabled`, and fails afterwards: its
        contract leaves `enabled` true on a call that raised. */
    lemma TriggerFailureLeavesEnabled()
      requires dll.answer == RefusesTrigger
      ensures SelectOk() && PreludeOk(map[]) && UpdateOk(map[], map[], true)
      ensures !EnableOk(map[], map[])
    {
      assert UpdateKeys(map[], map[], true) == {};
      assert CoolCalls(map[]) == [SetFanMode(0), GetTemperatureRange, CoolerON];
    }
  }

  /** A driver that raises only on SetTriggerMode(1). */
  function RefusesTrigger(fn: Fn): Reply {
    if fn == SetTriggerMode(1) then Raised else Returned(AndorSdk.DRV_SUCCESS, [])
  }
}
