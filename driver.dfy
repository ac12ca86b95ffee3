/** The vendor driver as seen by andor.py: one process-wide library with a single
    "current camera" cell, guarded by the module-level `dll_lock`. The driver's own
    behaviour is an oracle: each call, with its arguments, either raises or returns
    a status code and the values it writes into its output parameters. */
module Driver {
  import opened Python

  type Handle = int

  /** The driver functions andor.py calls, with the arguments it passes. */
  datatype Fn =
    | SetCurrentCamera(handle: Handle)
    | Initialize
    | ShutDown
    | AbortAcquisition
    | StartAcquisition
    | SetShutter(ttlType: int, mode: int, closingMs: int, openingMs: int)
    | SetFanMode(fanMode: int)
    | GetTemperatureRange
    | SetTemperature(degrees: int)
    | CoolerON
    | SetAcquisitionMode(acquisitionMode: int)
    | SetTriggerMode(triggerMode: int)
    | GetFastestRecommendedVSSpeed
    | SetVSSpeed(vsIndex: int)
    | SetEMCCDGain(gain: int)
    | SetExposureTime(seconds: real)
    | SetOutputAmplifier(amplifier: int)
    | GetTemperature
    | GetCameraSerialNumber
    | GetCapabilities
    | GetDetector
    | GetAcquisitionTimings
    | GetAvailableCameras
    | GetCameraHandle(index: int)

  /** What one driver call did. A ctypes output parameter the driver does not write keeps its initial 0. */
  datatype Reply = Raised | Returned(code: int, outs: seq<int>) {
    function Out(k: nat): int {
      if Returned? && k < |outs| then outs[k] else 0
    }

    /** The status code a call returned (0 when it raised). */
    function Status(): int {
      if Returned? then code else 0
    }
  }

  /** Who made a call: the serving process itself, or a camera session. `guarded` says
      the session is not a singleton (so it must lock); `held` says it held the lock. */
  datatype Caller = Process | Session(handle: Handle, guarded: bool, held: bool)

  datatype Event =
    | Acquire
    | Release
    | Call(fn: Fn, caller: Caller, target: Option<Handle>)

  /** A guarded session calls the driver only while it holds the lock, and every call
      other than the selection itself acts on the session's own camera. */
  predicate DisciplinedEvent(e: Event) {
    e.Call? && e.caller.Session? && e.caller.guarded ==>
      e.caller.held && (e.fn.SetCurrentCamera? || e.target == Some(e.caller.handle))
  }

  /** Every event of the trace respects the discipline, checked from the latest one back. */
  ghost predicate Disciplined(t: seq<Event>)
    decreases |t|
  {
    |t| == 0 || (Disciplined(t[..|t| - 1]) && DisciplinedEvent(t[|t| - 1]))
  }

  /** A disciplined trace is one whose every event is disciplined. */
  lemma {:induction false} DisciplinedEvery(t: seq<Event>)
    ensures Disciplined(t) <==> forall i | 0 <= i < |t| :: DisciplinedEvent(t[i])
    decreases |t|
  {
    if |t| > 0 {
      var p := t[..|t| - 1];
      DisciplinedEvery(p);
      assert forall i | 0 <= i < |p| :: p[i] == t[i];
    }
  }

  /** The driver library and the process-wide lock in front of it. */
  class Dll {
    const answer: Fn -> Reply
    var locked: bool
    var current: Option<Handle>
    var trace: seq<Event>
    /** The calls made so far other than camera selections, the number of lock operations
        and the number of camera selections. */
    ghost var calls: seq<Fn>
    ghost var lockOps: nat
    ghost var selects: nat

    ghost predicate Valid()
      reads this
    {
      Disciplined(trace)
    }

    constructor (answer: Fn -> Reply)
      ensures Valid() && this.answer == answer
      ensures !locked && current == None && trace == []
      ensures calls == [] && lockOps == 0 && selects == 0
    {
      this.answer := answer;
      locked, current, trace := false, None, [];
      calls, lockOps, selects := [], 0, 0;
    }

    /** `dll_lock.acquire()` on a free lock: sessions run one at a time, so waiting for the
        lock is not modelled. */
    method Acquire()
      requires Valid() && !locked
      modifies this
      ensures Valid() && locked && current == old(current)
      ensures trace == old(trace) + [Event.Acquire]
      ensures calls == old(calls) && lockOps == old(lockOps) + 1 && selects == old(selects)
    {
      trace := trace + [Event.Acquire];
      assert trace[..|trace| - 1] == old(trace);
      locked, lockOps := true, lockOps + 1;
    }

    /** `dll_lock.release()`. */
    method Release()
      requires Valid()
      modifies this
      ensures Valid() && !locked && current == old(current)
      ensures trace == old(trace) + [Event.Release]
      ensures calls == old(calls) && lockOps == old(lockOps) + 1 && selects == old(selects)
    {
      trace := trace + [Event.Release];
      assert trace[..|trace| - 1] == old(trace);
      locked, lockOps := false, lockOps + 1;
    }

    /** One call into the library. A successful SetCurrentCamera changes the current camera. */
    method Call(fn: Fn, caller: Caller) returns (r: Reply)
      requires Valid()
      requires DisciplinedEvent(Event.Call(fn, caller, current))
      modifies this
      ensures Valid() && r == answer(fn) && locked == old(locked)
      ensures trace == old(trace) + [Event.Call(fn, caller, old(current))]
      ensures current == if fn.SetCurrentCamera? && !r.Raised? then Some(fn.handle) else old(current)
      ensures calls == old(calls) + if fn.SetCurrentCamera? then [] else [fn]
      ensures lockOps == old(lockOps)
      ensures selects == old(selects) + if fn.SetCurrentCamera? then 1 else 0
    {
      r := answer(fn);
      trace := trace + [Event.Call(fn, caller, current)];
      assert trace[..|trace| - 1] == old(trace);
      if fn.SetCurrentCamera? {
        selects := selects + 1;
        if !r.Raised? {
          current := Some(fn.handle);
        }
      } else {
        calls := calls + [fn];
      }
    }
  }
}
