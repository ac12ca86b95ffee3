/** andorIxon.py's camera object: the settings it caches from the driver calls that went
    through, the image geometry and ring buffer it allocates, and one step of each of the two
    threads that move images from the driver to the client. */
module Ixon {
  import opened Python
  import opened IxonDriver
  import opened IxonGeometry
  import opened IxonRing
  import AndorSdk

  /** The settings the camera caches as the last value it gave the driver. */
  datatype Caches = Caches(
    gain: Option<int>, shutter: Option<int>, trigger: Option<int>, fanmode: Option<int>,
    outamp: Option<int>, vsspeed: Option<int>, hsspeed: Option<int>, preAmpGain: Option<int>,
    acquisitionMode: Option<int>)

  const NO_CACHES: Caches := Caches(None, None, None, None, None, None, None, None, None)

  /** What a driver call that went through does to the cached settings: each setter records
      its argument, SetHSSpeed both the amplifier it was told (possibly None) and the index. */
  function Step(c: Caches, fn: Fn): Caches {
    match fn
    case SetEMCCDGain(g) => c.(gain := Some(g))
    case SetShutter(_, mode, _, _) => c.(shutter := Some(mode))
    case SetTriggerMode(t) => c.(trigger := Some(t))
    case SetFanMode(f) => c.(fanmode := Some(f))
    case SetOutputAmplifier(a) => c.(outamp := Some(a))
    case SetVSSpeed(i) => c.(vsspeed := Some(i))
    case SetHSSpeed(a, i) => c.(outamp := a, hsspeed := Some(i))
    case SetPreAmpGain(i) => c.(preAmpGain := Some(i))
    case SetAcquisitionMode(m) => c.(acquisitionMode := Some(m))
    case _ => c
  }

  /** The cached settings a log of accepted calls leaves, starting from none. */
  function Replay(log: seq<Fn>): Caches {
    if |log| == 0 then NO_CACHES else Step(Replay(log[..|log| - 1]), log[|log| - 1])
  }

  lemma ReplayAppend(log: seq<Fn>, fn: Fn)
    ensures Replay(log + [fn]) == Step(Replay(log), fn)
  {
    assert (log + [fn])[..|log|] == log;
  }

  /** The value a setting holds after a log: the one the last call setting it gave. */
  function LastGain(log: seq<Fn>): Option<int> {
    if |log| == 0 then None
    else if log[|log| - 1].SetEMCCDGain? then Some(log[|log| - 1].gain)
    else LastGain(log[..|log| - 1])
  }

  /** The cached gain is the argument of the last SetEMCCDGain that went through; the other
      settings follow the same pattern. */
  lemma {:induction false} ReplayGain(log: seq<Fn>)
    ensures Replay(log).gain == LastGain(log)
  {
    if |log| > 0 {
      ReplayGain(log[..|log| - 1]);
    }
  }

  /** Calls that set nothing (GetStatus, SetImage, GetOldestImage16, ...) leave every cached
      setting as it was, however many there are. */
  lemma {:induction false} ReplayIgnores(log: seq<Fn>, other: seq<Fn>)
    requires forall i | 0 <= i < |other| :: forall c :: Step(c, other[i]) == c
    ensures Replay(log + other) == Replay(log)
  {
    if |other| == 0 {
      assert log + other == log;
    } else {
      var front := other[..|other| - 1];
      assert (log + other)[..|log + other| - 1] == log + front;
      assert (log + other)[|log + other| - 1] == other[|other| - 1];
      ReplayIgnores(log, front);
    }
  }

  /** What a call that raises or returns tells its caller. */
  function Done<T>(r: Result<T>): (out: Outcome)
    ensures out.Pass? <==> r.Ok?
    ensures r.Raise? ==> out.error == r.error
  {
    match r
    case Ok(_) => Pass
    case Raise(e) => Fail(e)
  }

  /** The call setImage makes for a window. */
  function WindowCall(w: Window): Fn {
    SetImage(w.binX, w.binY, w.hstart, w.hend, w.vstart, w.vend)
  }

  /** The exposure thread's own fields. */
  datatype ExposureState = ExposureState(
    skipNext: int, count: int, skipEvery: int, camAborted: bool, ringIndex: int, exposureCounter: Option<int>)

  /** The correction thread's own fields. */
  datatype CorrectionState = CorrectionState(
    corrRot: int, client: bool, skipLeft: int, skipRight: int, skipTop: int, skipBottom: int,
    imageIn: Shape, newImage: Image, ringIndex: int, sent: seq<Image>)

  /** `Camera`. */
  class Camera {
    const lib: AndorWrap
    var gainCache: Option<int>
    var shutterCache: Option<int>
    var triggerCache: Option<int>
    var fanmodeCache: Option<int>
    var outampCache: Option<int>
    var adcCache: Option<int>
    var vsspeedCache: Option<int>
    var hsspeedCache: Option<int>
    var preAmpGainCache: Option<int>
    var acquisitionMode: Option<int>
    var rotCache: int
    /** `chipSizeXY`, known once `start` has asked the driver; `cols` is its x extent. */
    var chipSize: Option<Shape>
    /** Whether a client connection is set. */
    var client: bool
    /** `imageArray`, allocated by setImage, and the number of images read into it. */
    var imageArray: Option<Image>
    var frames: nat
    /** `imageOutArray`, allocated by setskipLRTB. */
    var imageOut: Option<Shape>
    /** `picNum_arr`: the exposure number of each ring slot, as a uint16. */
    const picNum: array<int>
    var ring: array<Image>
    /** The count of the semaphore that hands ring slots to the correction thread. */
    var semaphore: int
    var exposureThread: ExposureThread?
    var correctionThread: CorrectionThread?

    /** A new camera caches nothing, has no threads, and an empty ring. */
    constructor (lib: AndorWrap)
      ensures this.lib == lib
      ensures Replay(lib.accepted) == NO_CACHES ==> Cached()
      ensures gainCache.None? && shutterCache.None? && triggerCache.None? && fanmodeCache.None?
      ensures outampCache.None? && adcCache.None? && vsspeedCache.None? && hsspeedCache.None?
      ensures preAmpGainCache.None? && acquisitionMode.None? && rotCache == 0
      ensures chipSize.None? && !client && imageArray.None? && frames == 0 && imageOut.None?
      ensures fresh(picNum) && picNum.Length == BUFFER_LENGTH && fresh(ring) && ring.Length == 0
      ensures semaphore == 1 && exposureThread == null && correctionThread == null
    {
      this.lib := lib;
      gainCache, shutterCache, triggerCache, fanmodeCache := None, None, None, None;
      outampCache, adcCache, vsspeedCache, hsspeedCache := None, None, None, None;
      preAmpGainCache, acquisitionMode, rotCache := None, None, 0;
      chipSize, client, imageArray, frames, imageOut := None, false, None, 0, None;
      picNum := new int[BUFFER_LENGTH](_ => 0);
      ring := new Image[0];
      semaphore := 1;
      exposureThread, correctionThread := null, null;
    }

    /** The cached settings. */
    function CacheView(): Caches
      reads this
    {
      Caches(gainCache, shutterCache, triggerCache, fanmodeCache, outampCache, vsspeedCache,
             hsspeedCache, preAmpGainCache, acquisitionMode)
    }

    /** Every cache holds the value the last driver call that went through gave it. */
    ghost predicate Cached()
      reads this, lib
    {
      CacheView() == Replay(lib.accepted)
    }

    /** One wrapped driver call, and what it does to the log of accepted calls. */
    method Apply(fn: Fn) returns (out: Outcome)
      modifies lib`busy, lib`calls, lib`accepted
      ensures out == Done(lib.Outcome(old(lib.busy), fn))
      ensures lib.busy == lib.Wedges(old(lib.busy), fn)
      ensures lib.calls == old(lib.calls) + lib.Tried(old(lib.busy), fn)
      ensures lib.accepted == old(lib.accepted) + if out.Pass? then [fn] else []
      ensures Replay(lib.accepted) == if out.Pass? then Step(Replay(old(lib.accepted)), fn) else Replay(old(lib.accepted))
    {
      var r := lib.Call(fn);
      out := Done(r);
      if r.Ok? {
        ReplayAppend(old(lib.accepted), fn);
      } else {
        assert lib.accepted == old(lib.accepted);
      }
    }

    /** `setgain`. */
    method SetGain(g: int) returns (out: Outcome)
      requires Cached()
      modifies this`gainCache, lib`busy, lib`calls, lib`accepted
      ensures Cached()
      ensures out == Done(lib.Outcome(old(lib.busy), SetEMCCDGain(g)))
      ensures lib.calls == old(lib.calls) + lib.Tried(old(lib.busy), SetEMCCDGain(g))
      ensures lib.busy == lib.Wedges(old(lib.busy), SetEMCCDGain(g))
      ensures gainCache == if out.Pass? then Some(g) else old(gainCache)
    {
      out := Apply(SetEMCCDGain(g));
      if out.Pass? {
        gainCache := Some(g);
      }
    }

    /** `setshutter`: TTL high, the given mode, and one-millisecond opening and closing. */
    method SetShutterMode(shutter: int) returns (out: Outcome)
      requires Cached()
      modifies this`shutterCache, lib`busy, lib`calls, lib`accepted
      ensures Cached()
      ensures out == Done(lib.Outcome(old(lib.busy), SetShutter(1, shutter, 1, 1)))
      ensures lib.calls == old(lib.calls) + lib.Tried(old(lib.busy), SetShutter(1, shutter, 1, 1))
      ensures lib.busy == lib.Wedges(old(lib.busy), SetShutter(1, shutter, 1, 1))
      ensures shutterCache == if out.Pass? then Some(shutter) else old(shutterCache)
    {
      out := Apply(SetShutter(1, shutter, 1, 1));
      if out.Pass? {
        shutterCache := Some(shutter);
      }
    }

    /** `settrigger`. */
    method SetTrigger(ext: int) returns (out: Outcome)
      requires Cached()
      modifies this`triggerCache, lib`busy, lib`calls, lib`accepted
      ensures Cached()
      ensures out == Done(lib.Outcome(old(lib.busy), SetTriggerMode(ext)))
      ensures lib.calls == old(lib.calls) + lib.Tried(old(lib.busy), SetTriggerMode(ext))
      ensures lib.busy == lib.Wedges(old(lib.busy), SetTriggerMode(ext))
      ensures triggerCache == if out.Pass? then Some(ext) else old(triggerCache)
    {
      out := Apply(SetTriggerMode(ext));
      if out.Pass? {
        triggerCache := Some(ext);
      }
    }

    /** `setfan`. */
    method SetFan(mode: int) returns (out: Outcome)
      requires Cached()
      modifies this`fanmodeCache, lib`busy, lib`calls, lib`accepted
      ensures Cached()
      ensures out == Done(lib.Outcome(old(lib.busy), SetFanMode(mode)))
      ensures lib.calls == old(lib.calls) + lib.Tried(old(lib.busy), SetFanMode(mode))
      ensures lib.busy == lib.Wedges(old(lib.busy), SetFanMode(mode))
      ensures fanmodeCache == if out.Pass? then Some(mode) else old(fanmodeCache)
    {
      out := Apply(SetFanMode(mode));
      if out.Pass? {
        fanmodeCache := Some(mode);
      }
    }

    /** `setadc`: the camera has one AD channel, so channel 0 is always selected and only the
        cache records the bit depth asked for. */
    method SetAdc(is16Bit: int) returns (out: Outcome)
      requires Cached()
      modifies this`adcCache, lib`busy, lib`calls, lib`accepted
      ensures Cached()
      ensures out == Done(lib.Outcome(old(lib.busy), SetADChannel(0)))
      ensures lib.calls == old(lib.calls) + lib.Tried(old(lib.busy), SetADChannel(0))
      ensures lib.busy == lib.Wedges(old(lib.busy), SetADChannel(0))
      ensures adcCache == if out.Pass? then Some(is16Bit) else old(adcCache)
    {
      out := Apply(SetADChannel(0));
      if out.Pass? {
        adcCache := Some(is16Bit);
      }
    }

    /** `setvsspeed`. */
    method SetVsSpeed(vsSpeedIdx: int) returns (out: Outcome)
      requires Cached()
      modifies this`vsspeedCache, lib`busy, lib`calls, lib`accepted
      ensures Cached()
      ensures out == Done(lib.Outcome(old(lib.busy), SetVSSpeed(vsSpeedIdx)))
      ensures lib.calls == old(lib.calls) + lib.Tried(old(lib.busy), SetVSSpeed(vsSpeedIdx))
      ensures lib.busy == lib.Wedges(old(lib.busy), SetVSSpeed(vsSpeedIdx))
      ensures vsspeedCache == if out.Pass? then Some(vsSpeedIdx) else old(vsspeedCache)
    {
      out := Apply(SetVSSpeed(vsSpeedIdx));
      if out.Pass? {
        vsspeedCache := Some(vsSpeedIdx);
      }
    }

    /** `SetPreAmpGain`. */
    method SetPreAmp(idx: int) returns (out: Outcome)
      requires Cached()
      modifies this`preAmpGainCache, lib`busy, lib`calls, lib`accepted
      ensures Cached()
      ensures out == Done(lib.Outcome(old(lib.busy), SetPreAmpGain(idx)))
      ensures lib.calls == old(lib.calls) + lib.Tried(old(lib.busy), SetPreAmpGain(idx))
      ensures lib.busy == lib.Wedges(old(lib.busy), SetPreAmpGain(idx))
      ensures preAmpGainCache == if out.Pass? then Some(idx) else old(preAmpGainCache)
    {
      out := Apply(SetPreAmpGain(idx));
      if out.Pass? {
        preAmpGainCache := Some(idx);
      }
    }

    /** The correction rotation for the cached output amplifier and a rotation. */
    function RotationFor(rot: int): Result<int>
      reads this
    {
      CorrRot(outampCache, rot)
    }

    /** `setcorrrot`: a given rotation is cached before it is checked; no rotation means the
        cached one. The correction thread receives the rotation the amplifier calls for. */
    method SetCorrRot(rot: Option<int>) returns (out: Outcome)
      modifies this`rotCache, correctionThread
      ensures rotCache == if rot.Some? then rot.value else old(rotCache)
      ensures out == if RotationFor(rotCache).Raise? then Fail(ValueError)
                     else if correctionThread == null then Fail(AttributeError) else Pass
      ensures correctionThread != null ==>
        correctionThread.State() == if out.Pass? then old(correctionThread.State()).(corrRot := RotationFor(rotCache).value)
                                    else old(correctionThread.State())
    {
      if rot.Some? {
        rotCache := rot.value;
      }
      var c := CorrRot(outampCache, rotCache);
      if c.Raise? {
        return Fail(c.error);
      }
      if correctionThread == null {
        return Fail(AttributeError);
      }
      correctionThread.corrRot := c.value;
      out := Pass;
    }

    /** The amplifier call of setoutamp, cached when it goes through. */
    method ApplyOutAmp(conv: int) returns (out: Outcome)
      requires Cached()
      modifies this`outampCache, lib`busy, lib`calls, lib`accepted
      ensures Cached()
      ensures out == Done(lib.Outcome(old(lib.busy), SetOutputAmplifier(conv)))
      ensures lib.calls == old(lib.calls) + lib.Tried(old(lib.busy), SetOutputAmplifier(conv))
      ensures lib.busy == lib.Wedges(old(lib.busy), SetOutputAmplifier(conv))
      ensures outampCache == if out.Pass? then Some(conv) else old(outampCache)
    {
      out := Apply(SetOutputAmplifier(conv));
      if out.Pass? {
        outampCache := Some(conv);
      }
    }

    /** `setoutamp`: the amplifier, then the rotation it calls for. */
    method SetOutAmp(conv: int) returns (out: Outcome)
      requires Cached()
      modifies this`outampCache, this`rotCache, correctionThread, lib`busy, lib`calls, lib`accepted
      ensures Cached()
      ensures lib.calls == old(lib.calls) + lib.Tried(old(lib.busy), SetOutputAmplifier(conv))
      ensures lib.busy == lib.Wedges(old(lib.busy), SetOutputAmplifier(conv))
      ensures outampCache == if lib.Outcome(old(lib.busy), SetOutputAmplifier(conv)).Ok? then Some(conv) else old(outampCache)
      ensures lib.Outcome(old(lib.busy), SetOutputAmplifier(conv)).Raise? ==>
        out == Done(lib.Outcome(old(lib.busy), SetOutputAmplifier(conv)))
      ensures lib.Outcome(old(lib.busy), SetOutputAmplifier(conv)).Ok? ==>
        out == if CorrRot(Some(conv), rotCache).Raise? then Fail(ValueError)
               else if correctionThread == null then Fail(AttributeError) else Pass
      ensures rotCache == old(rotCache)
      ensures correctionThread != null ==>
        correctionThread.State() == if out.Pass? then old(correctionThread.State()).(corrRot := CorrRot(Some(conv), rotCache).value)
                                    else old(correctionThread.State())
    {
      out := ApplyOutAmp(conv);
      if out.Pass? {
        out := SetCorrRot(None);
      }
    }

    /** The speed call of sethsspeed, with its amplifier and index cached when it goes through. */
    method ApplyHsSpeed(hsSpeedIdx: int, amp: Option<int>) returns (out: Outcome)
      requires Cached()
      modifies this`outampCache, this`hsspeedCache, lib`busy, lib`calls, lib`accepted
      ensures Cached()
      ensures out == Done(lib.Outcome(old(lib.busy), SetHSSpeed(amp, hsSpeedIdx)))
      ensures lib.calls == old(lib.calls) + lib.Tried(old(lib.busy), SetHSSpeed(amp, hsSpeedIdx))
      ensures lib.busy == lib.Wedges(old(lib.busy), SetHSSpeed(amp, hsSpeedIdx))
      ensures outampCache == if out.Pass? then amp else old(outampCache)
      ensures hsspeedCache == if out.Pass? then Some(hsSpeedIdx) else old(hsspeedCache)
    {
      out := Apply(SetHSSpeed(amp, hsSpeedIdx));
      if out.Pass? {
        outampCache, hsspeedCache := amp, Some(hsSpeedIdx);
      }
    }

    /** `sethsspeed`: the speed index for an output amplifier (the cached one when none is
        given), which is cached too, then the rotation it calls for. */
    method SetHsSpeed(hsSpeedIdx: int, outamp: Option<int>) returns (out: Outcome)
      requires Cached()
      modifies this`outampCache, this`hsspeedCache, this`rotCache, correctionThread, lib`busy, lib`calls, lib`accepted
      ensures Cached()
      ensures var fn := SetHSSpeed(if outamp.Some? then outamp else old(outampCache), hsSpeedIdx);
        lib.calls == old(lib.calls) + lib.Tried(old(lib.busy), fn)
        && lib.busy == lib.Wedges(old(lib.busy), fn)
        && outampCache == (if lib.Outcome(old(lib.busy), fn).Ok? then fn.amplifierType else old(outampCache))
        && hsspeedCache == (if lib.Outcome(old(lib.busy), fn).Ok? then Some(hsSpeedIdx) else old(hsspeedCache))
        && (lib.Outcome(old(lib.busy), fn).Raise? ==> out == Done(lib.Outcome(old(lib.busy), fn)))
        && (lib.Outcome(old(lib.busy), fn).Ok? ==>
              out == if CorrRot(outampCache, rotCache).Raise? then Fail(ValueError)
                     else if correctionThread == null then Fail(AttributeError) else Pass)
      ensures rotCache == old(rotCache)
      ensures correctionThread != null ==>
        correctionThread.State() == if out.Pass? then old(correctionThread.State()).(corrRot := CorrRot(outampCache, rotCache).value)
                                    else old(correctionThread.State())
    {
      var amp := if outamp.Some? then outamp else outampCache;
      out := ApplyHsSpeed(hsSpeedIdx, amp);
      if out.Pass? {
        out := SetCorrRot(None);
      }
    }

    /** What GetStatus gives when the lock is free. */
    function StatusReply(): Result<PyValue> {
      lib.Wrapped(GetStatus)
    }

    predicate Acquiring() {
      StatusReply() == Ok(PScalar(SInt(AndorSdk.DRV_ACQUIRING)))
    }

    /** What the unwrapped AbortAcquisition gives. */
    function AbortReply(): Result<PyValue> {
      match lib.answer(AbortAcquisition)
      case None => Raise(DriverFault)
      case Some(v) => Ok(v)
    }

    /** The status part of resetToSafe, from a free lock: read the status, abort an
        acquisition and describe the abort's result, read the status again and describe it.
        The bindings are a fixed oracle, so the second read gives what the first gave. */
    function StatusCheck(): (out: Outcome)
      ensures out.Pass? ==> StatusReply().Ok? && lib.answer(GetStatus).Some?
    {
      if StatusReply().Raise? then Fail(StatusReply().error)
      else if Acquiring() && AbortReply().Raise? then Fail(AbortReply().error)
      else if Acquiring() && ConvertErrorToDesc(lib.table, AbortReply().value).Raise? then
        Fail(ConvertErrorToDesc(lib.table, AbortReply().value).error)
      else if ConvertErrorToDesc(lib.table, StatusReply().value).Raise? then
        Fail(ConvertErrorToDesc(lib.table, StatusReply().value).error)
      else Pass
    }

    /** The calls the status part makes from a free lock. */
    function StatusCalls(): seq<Fn> {
      if StatusReply().Raise? then [GetStatus]
      else if Acquiring() && (AbortReply().Raise? || ConvertErrorToDesc(lib.table, AbortReply().value).Raise?) then
        [GetStatus] + [AbortAcquisition]
      else [GetStatus] + (if Acquiring() then [AbortAcquisition] else []) + [GetStatus]
    }

    /** The status part of `resetToSafe`. */
    method CheckStatus() returns (out: Outcome)
      modifies lib`busy, lib`calls, lib`accepted
      ensures Replay(lib.accepted) == Replay(old(lib.accepted))
      ensures out == if old(lib.busy) then Fail(LockedError(GetStatus)) else StatusCheck()
      ensures lib.calls == old(lib.calls) + if old(lib.busy) then [] else StatusCalls()
      ensures lib.busy == (old(lib.busy) || lib.Wedges(false, GetStatus))
      ensures out.Pass? ==> !lib.busy
    {
      ghost var c0 := lib.calls;
      out := Apply(GetStatus);
      if out.Pass? {
        var status := lib.Wrapped(GetStatus).value;
        var acquiring := status == PScalar(SInt(AndorSdk.DRV_ACQUIRING));
        out := AbortIfAcquiring(acquiring);
        ghost var aborted := if acquiring then [AbortAcquisition] else [];
        Assoc(c0, [GetStatus], aborted);
        if out.Pass? {
          out := Apply(GetStatus);
          Assoc(c0, [GetStatus] + aborted, [GetStatus]);
          if out.Pass? {
            var desc := ConvertErrorToDesc(lib.table, status);
            if desc.Raise? {
              out := Fail(desc.error);
            }
          }
        }
      }
    }

    /** The abort of the status part, made only during an acquisition: the unwrapped
        AbortAcquisition, whose result is then described. */
    method AbortIfAcquiring(acquiring: bool) returns (out: Outcome)
      modifies lib`calls
      ensures !acquiring ==> out == Pass && lib.calls == old(lib.calls)
      ensures acquiring ==> lib.calls == old(lib.calls) + [AbortAcquisition]
      ensures acquiring ==>
        out == if AbortReply().Raise? then Fail(AbortReply().error)
               else if ConvertErrorToDesc(lib.table, AbortReply().value).Raise? then
                 Fail(ConvertErrorToDesc(lib.table, AbortReply().value).error)
               else Pass
    {
      out := Pass;
      if acquiring {
        var r := lib.Direct(AbortAcquisition);
        if r.Raise? {
          out := Fail(r.error);
        } else {
          var desc := ConvertErrorToDesc(lib.table, r.value);
          if desc.Raise? {
            out := Fail(desc.error);
          }
        }
      }
    }

    /** `resetToSafe`: after the status part, the shutter is set to mode 1 and the gain to 0;
        the first of them that raises is re-raised, and a binding that raised leaves the lock
        taken. Once it returns, the caches show that safe state. */
    method ResetToSafe() returns (out: Outcome)
      requires Cached()
      modifies this`shutterCache, this`gainCache, lib`busy, lib`calls, lib`accepted
      ensures Cached()
      ensures out.Pass? ==> shutterCache == Some(1) && gainCache == Some(0)
      ensures out.Pass? <==>
        !old(lib.busy) && StatusCheck().Pass?
        && lib.Wrapped(SetShutter(1, 1, 1, 1)).Ok? && lib.Wrapped(SetEMCCDGain(0)).Ok?
      ensures old(lib.busy) ==> out == Fail(LockedError(GetStatus)) && lib.calls == old(lib.calls)
      ensures !old(lib.busy) && StatusCheck().Fail? ==> out == StatusCheck() && lib.calls == old(lib.calls) + StatusCalls()
      ensures out.Pass? ==> lib.calls == old(lib.calls) + StatusCalls() + [SetShutter(1, 1, 1, 1), SetEMCCDGain(0)]
      ensures out.Fail? ==> gainCache == old(gainCache)
      ensures !(!old(lib.busy) && StatusCheck().Pass?) ==>
        lib.busy == (old(lib.busy) || lib.Wedges(false, GetStatus)) && shutterCache == old(shutterCache)
      ensures !old(lib.busy) && StatusCheck().Pass? ==>
        var shutter := lib.Wrapped(SetShutter(1, 1, 1, 1));
        var gain := lib.Wrapped(SetEMCCDGain(0));
        out == (if shutter.Raise? then Done(shutter) else Done(gain))
        && lib.calls == old(lib.calls) + StatusCalls() + [SetShutter(1, 1, 1, 1)] + (if shutter.Ok? then [SetEMCCDGain(0)] else [])
        && lib.busy == (if shutter.Raise? then lib.Wedges(false, SetShutter(1, 1, 1, 1)) else lib.Wedges(false, SetEMCCDGain(0)))
        && shutterCache == (if shutter.Ok? then Some(1) else old(shutterCache))
        && gainCache == (if shutter.Ok? && gain.Ok? then Some(0) else old(gainCache))
    {
      out := CheckStatus();
      if out.Fail? {
        return;
      }
      out := SetShutterMode(1);
      if out.Fail? {
        return;
      }
      out := SetGain(0);
    }

    /** `prepareAcqMode`: nothing happens when the camera is already in the mode; otherwise the
        mode is set and cached, and the exposure thread's `exposureCounter` is zeroed. */
    method PrepareAcqMode(mode: int) returns (out: Outcome)
      requires Cached()
      modifies this`acquisitionMode, exposureThread, lib`busy, lib`calls, lib`accepted
      ensures Cached()
      ensures old(acquisitionMode) == Some(mode) ==> out.Pass? && lib.calls == old(lib.calls)
      ensures old(acquisitionMode) != Some(mode) ==>
        lib.calls == old(lib.calls) + lib.Tried(old(lib.busy), SetAcquisitionMode(mode))
        && lib.busy == lib.Wedges(old(lib.busy), SetAcquisitionMode(mode))
      ensures out.Pass? ==> acquisitionMode == Some(mode)
      ensures old(acquisitionMode) != Some(mode) && lib.Outcome(old(lib.busy), SetAcquisitionMode(mode)).Raise? ==>
        out == Done(lib.Outcome(old(lib.busy), SetAcquisitionMode(mode))) && acquisitionMode == old(acquisitionMode)
      ensures old(acquisitionMode) != Some(mode) && lib.Outcome(old(lib.busy), SetAcquisitionMode(mode)).Ok? ==>
        out == (if exposureThread == null then Fail(AttributeError) else Pass)
      ensures exposureThread != null ==>
        exposureThread.State() == if old(acquisitionMode) != Some(mode) && lib.Outcome(old(lib.busy), SetAcquisitionMode(mode)).Ok?
                                  then old(exposureThread.State()).(exposureCounter := Some(0)) else old(exposureThread.State())
    {
      if acquisitionMode == Some(mode) {
        return Pass;
      }
      out := Apply(SetAcquisitionMode(mode));
      if out.Fail? {
        return;
      }
      acquisitionMode := Some(mode);
      if exposureThread == null {
        return Fail(AttributeError);
      }
      exposureThread.exposureCounter := Some(0);
    }

    /** `getImage`: the oldest image is read into `imageArray`; every failure, a missing array
        included, is swallowed. */
    method GetImage()
      requires Cached()
      modifies this`imageArray, this`frames, lib`busy, lib`calls, lib`accepted
      ensures Cached()
      ensures old(imageArray).None? ==> lib.calls == old(lib.calls) && lib.busy == old(lib.busy)
      ensures old(imageArray).Some? ==>
        lib.calls == old(lib.calls) + lib.Tried(old(lib.busy), GetOldestImage16)
        && lib.busy == lib.Wedges(old(lib.busy), GetOldestImage16)
      ensures imageArray ==
        if old(imageArray).Some? && lib.Outcome(old(lib.busy), GetOldestImage16).Ok?
        then Some(old(imageArray).value.(frame := old(frames) + 1)) else old(imageArray)
      ensures frames == if old(imageArray).Some? && lib.Outcome(old(lib.busy), GetOldestImage16).Ok?
                        then old(frames) + 1 else old(frames)
    {
      if imageArray.None? {
        return;
      }
      var out := Apply(GetOldestImage16);
      if out.Pass? {
        frames := frames + 1;
        imageArray := Some(imageArray.value.(frame := frames));
      }
    }

    /** What setImage's checks and its driver call give, from a lock state: the window's
        own errors, then the driver's, then numpy's refusal of a negative shape. */
    function Windowed(wasBusy: bool, x0: int, y0: int, nx: Option<int>, ny: Option<int>, binX: int, binY: int)
      : (r: Result<Shape>)
      reads this
      ensures r.Ok? ==> r.value.rows >= 0 && r.value.cols >= 0
    {
      match ImageWindow(chipSize, x0, y0, nx, ny, binX, binY)
      case Raise(e) => Raise(e)
      case Ok(w) =>
        match lib.Outcome(wasBusy, WindowCall(w))
        case Raise(e) => Raise(e)
        case Ok(_) => if w.shape.rows < 0 || w.shape.cols < 0 then Raise(ValueError) else Ok(w.shape)
    }

    /** The calls setImage makes: the window call, once the window is valid. */
    function WindowCalls(wasBusy: bool, x0: int, y0: int, nx: Option<int>, ny: Option<int>, binX: int, binY: int)
      : seq<Fn>
      reads this
    {
      match ImageWindow(chipSize, x0, y0, nx, ny, binX, binY)
      case Raise(_) => []
      case Ok(w) => lib.Tried(wasBusy, WindowCall(w))
    }

    /** The checks and the driver call of `setImage`. */
    method ApplyWindow(x0: int, y0: int, nx: Option<int>, ny: Option<int>, binX: int, binY: int)
      returns (r: Result<Shape>)
      requires Cached()
      modifies lib`busy, lib`calls, lib`accepted
      ensures Cached()
      ensures r == Windowed(old(lib.busy), x0, y0, nx, ny, binX, binY)
      ensures lib.calls == old(lib.calls) + WindowCalls(old(lib.busy), x0, y0, nx, ny, binX, binY)
    {
      var w := ImageWindow(chipSize, x0, y0, nx, ny, binX, binY);
      if w.Raise? {
        return Raise(w.error);
      }
      var out := Apply(WindowCall(w.value));
      if out.Fail? {
        return Raise(out.error);
      }
      var shape := w.value.shape;
      if shape.rows < 0 || shape.cols < 0 {
        return Raise(ValueError);
      }
      r := Ok(shape);
    }

    /** The allocations of `setImage`: a zeroed input array and a ring of fresh arrays of the
        shape, the threads' ring indices back at 0 and the correction thread's input array
        replaced. A missing thread raises AttributeError part-way. */
    method Allocate(shape: Shape) returns (r: Result<Shape>)
      modifies this`imageArray, this`ring, exposureThread, correctionThread
      ensures imageArray == Some(Image(shape, 0))
      ensures fresh(ring) && ring.Length == BUFFER_LENGTH
      ensures forall i | 0 <= i < ring.Length :: ring[i] == Image(shape, 0)
      ensures r == if exposureThread == null || correctionThread == null then Raise(AttributeError) else Ok(shape)
      ensures exposureThread != null ==> exposureThread.State() == old(exposureThread.State()).(ringIndex := 0)
      ensures correctionThread != null ==>
        correctionThread.State() == if exposureThread == null then old(correctionThread.State())
                                    else old(correctionThread.State()).(ringIndex := 0, imageIn := shape)
    {
      imageArray := Some(Image(shape, 0));
      ring := new Image[BUFFER_LENGTH](_ => Image(shape, 0));
      if exposureThread == null {
        return Raise(AttributeError);
      }
      exposureThread.ringIndex := 0;
      if correctionThread == null {
        return Raise(AttributeError);
      }
      correctionThread.ringIndex := 0;
      correctionThread.imageIn := shape;
      r := Ok(shape);
    }

    /** `setImage`: returns the binned shape once the window is set and the arrays allocated. */
    method SetImageWindow(x0: int, y0: int, nx: Option<int>, ny: Option<int>, binX: int, binY: int)
      returns (r: Result<Shape>)
      requires Cached()
      modifies this`imageArray, this`ring, exposureThread, correctionThread, lib`busy, lib`calls, lib`accepted
      ensures Cached()
      ensures lib.calls == old(lib.calls) + WindowCalls(old(lib.busy), x0, y0, nx, ny, binX, binY)
      ensures Windowed(old(lib.busy), x0, y0, nx, ny, binX, binY).Raise? ==>
        r == Windowed(old(lib.busy), x0, y0, nx, ny, binX, binY)
        && imageArray == old(imageArray) && ring == old(ring)
        && (exposureThread != null ==> exposureThread.State() == old(exposureThread.State()))
        && (correctionThread != null ==> correctionThread.State() == old(correctionThread.State()))
      ensures Windowed(old(lib.busy), x0, y0, nx, ny, binX, binY).Ok? ==>
        var shape := Windowed(old(lib.busy), x0, y0, nx, ny, binX, binY).value;
        r == (if exposureThread == null || correctionThread == null then Raise(AttributeError) else Ok(shape))
        && imageArray == Some(Image(shape, 0))
        && fresh(ring) && ring.Length == BUFFER_LENGTH && (forall i | 0 <= i < ring.Length :: ring[i] == Image(shape, 0))
        && (exposureThread != null ==> exposureThread.State() == old(exposureThread.State()).(ringIndex := 0))
        && (exposureThread != null && correctionThread != null ==>
              correctionThread.State() == old(correctionThread.State()).(ringIndex := 0, imageIn := shape))
    {
      r := ApplyWindow(x0, y0, nx, ny, binX, binY);
      if r.Ok? {
        r := Allocate(r.value);
      }
    }

    /** `setskipLRTB`: the skips go to the correction thread first; then an output array of the
        input array's shape less the skips is allocated and handed to it. */
    method SetSkipLRTB(left: int, right: int, top: int, bottom: int) returns (r: Result<Shape>)
      modifies this`imageOut, correctionThread
      ensures correctionThread == null ==> r == Raise(AttributeError) && imageOut == old(imageOut)
      ensures correctionThread != null && imageArray.None? ==>
        r == Raise(AttributeError) && imageOut == old(imageOut)
        && correctionThread.State() == old(correctionThread.State()).(
             skipLeft := left, skipRight := right, skipTop := top, skipBottom := bottom)
      ensures correctionThread != null && imageArray.Some? ==>
        var out := OutShape(imageArray.value.shape, left, right, top, bottom);
        if out.rows < 0 || out.cols < 0 then
          r == Raise(ValueError) && imageOut == old(imageOut)
          && correctionThread.State() == old(correctionThread.State()).(
               skipLeft := left, skipRight := right, skipTop := top, skipBottom := bottom)
        else
          r == Ok(out) && imageOut == Some(out)
          && correctionThread.State() == old(correctionThread.State()).(
               skipLeft := left, skipRight := right, skipTop := top, skipBottom := bottom, newImage := Image(out, 0))
    {
      if correctionThread == null {
        return Raise(AttributeError);
      }
      correctionThread.skipLeft, correctionThread.skipRight := left, right;
      correctionThread.skipTop, correctionThread.skipBottom := top, bottom;
      if imageArray.None? {
        return Raise(AttributeError);
      }
      var out := OutShape(imageArray.value.shape, left, right, top, bottom);
      if out.rows < 0 || out.cols < 0 {
        return Raise(ValueError);
      }
      imageOut := Some(out);
      correctionThread.newImage := Image(out, 0);
      r := Ok(out);
    }

    /** `skipEveryNimages`: from now on only every `n`-th image is buffered, counting afresh. */
    method SkipEveryNImages(n: int) returns (out: Outcome)
      modifies exposureThread
      ensures out == if exposureThread == null then Fail(AttributeError) else Pass
      ensures exposureThread != null ==>
        exposureThread.State() == old(exposureThread.State()).(skipEvery := n, count := 0)
    {
      if exposureThread == null {
        return Fail(AttributeError);
      }
      exposureThread.skipEvery, exposureThread.count := n, 0;
      out := Pass;
    }

    /** `skipNextNimages`: with no argument, the number of upcoming images still to be skipped;
        with one, that number is set. */
    method SkipNextNImages(n: Option<int>) returns (r: Result<Option<int>>)
      modifies exposureThread
      ensures exposureThread == null ==> r == Raise(AttributeError)
      ensures exposureThread != null && n.None? ==>
        r == Ok(Some(exposureThread.skipNext)) && exposureThread.State() == old(exposureThread.State())
      ensures exposureThread != null && n.Some? ==>
        r == Ok(None) && exposureThread.State() == old(exposureThread.State()).(skipNext := n.value)
    {
      if exposureThread == null {
        return Raise(AttributeError);
      }
      if n.None? {
        return Ok(Some(exposureThread.skipNext));
      }
      exposureThread.skipNext := n.value;
      r := Ok(None);
    }

    /** `startThreads`, without the `quit` it begins with: the exposure thread first, then the
        correction thread, which is given the client connection. */
    method StartThreads()
      modifies this`exposureThread, this`correctionThread
      ensures exposureThread != null && fresh(exposureThread) && exposureThread.cam == this
      ensures exposureThread.State() == ExposureState(0, 0, 1, false, 0, None)
      ensures correctionThread != null && fresh(correctionThread) && correctionThread.cam == this
      ensures correctionThread.State() ==
        CorrectionState(0, client, 0, 0, 0, 0, Shape(512, 512), Image(Shape(512, 512), 0), 0, [])
    {
      exposureThread := new ExposureThread(this);
      var t := new CorrectionThread(this);
      t.client := client;
      correctionThread := t;
    }
  }

  /** `ExposureThread`: on every exposure event it reads the image and, for every
      `skipEvery`-th image not skipped, copies it into the next ring slot. */
  class ExposureThread {
    const cam: Camera
    var skipNext: int
    var count: int
    var skipEvery: int
    var camAborted: bool
    var ringIndex: int
    /** `exposureCounter`, which only prepareAcqMode writes. */
    var exposureCounter: Option<int>

    constructor (cam: Camera)
      ensures this.cam == cam && State() == ExposureState(0, 0, 1, false, 0, None)
    {
      this.cam := cam;
      skipNext, count, skipEvery, camAborted, ringIndex := 0, 0, 1, false, 0;
      exposureCounter := None;
    }

    function State(): ExposureState
      reads this
    {
      ExposureState(skipNext, count, skipEvery, camAborted, ringIndex, exposureCounter)
    }

    predicate Valid()
      reads this
    {
      0 <= ringIndex < BUFFER_LENGTH && cam.picNum.Length == BUFFER_LENGTH
    }

    /** What an exposure event works on. */
    function ProducerView(): (p: Producer)
      reads this, cam, cam.picNum, cam.ring
      ensures Valid() ==> ProducerOk(p)
    {
      Producer(skipNext, count, skipEvery, ringIndex, cam.picNum[..], cam.ring[..], cam.imageArray, cam.semaphore)
    }

    /** The start of `run1`: the semaphore's count is taken, once it is positive. */
    method Begin()
      requires cam.semaphore > 0
      modifies cam`semaphore
      ensures cam.semaphore == old(cam.semaphore) - 1
    {
      cam.semaphore := cam.semaphore - 1;
    }

    /** One pass of `run1`'s loop, given whether the wait saw the event: unless the camera
        was aborted, the image is read, then the event is counted, skipped or buffered. */
    method Event(signalled: bool)
      requires Valid() && cam.Cached()
      modifies this`skipNext, this`count, this`ringIndex, cam.picNum, cam.ring, cam`semaphore
      modifies cam`imageArray, cam`frames, cam.lib`busy, cam.lib`calls, cam.lib`accepted
      ensures Valid() && cam.Cached()
      ensures !signalled || camAborted ==>
        ProducerView() == old(ProducerView()) && cam.lib.calls == old(cam.lib.calls)
        && cam.lib.busy == old(cam.lib.busy) && cam.frames == old(cam.frames)
      ensures signalled && !camAborted ==>
        var read := old(cam.imageArray).Some? && cam.lib.Outcome(old(cam.lib.busy), GetOldestImage16).Ok?;
        cam.imageArray == (if read then Some(old(cam.imageArray).value.(frame := old(cam.frames) + 1)) else old(cam.imageArray))
        && cam.frames == (if read then old(cam.frames) + 1 else old(cam.frames))
        && cam.lib.calls == old(cam.lib.calls) + (if old(cam.imageArray).Some? then cam.lib.Tried(old(cam.lib.busy), GetOldestImage16) else [])
        && cam.lib.busy == (if old(cam.imageArray).Some? then cam.lib.Wedges(old(cam.lib.busy), GetOldestImage16) else old(cam.lib.busy))
        && ProducerView() == Produced(old(ProducerView()).(image := cam.imageArray))
    {
      if !signalled || camAborted {
        return;
      }
      cam.GetImage();
      Produce();
    }

    /** The part of an event after the image was read. */
    method Produce()
      requires Valid()
      modifies this`skipNext, this`count, this`ringIndex, cam.picNum, cam.ring, cam`semaphore
      ensures Valid()
      ensures ProducerView() == Produced(old(ProducerView()))
    {
      if skipNext > 0 {
        skipNext := skipNext - 1;
        return;
      }
      count := count + 1;
      if skipEvery == 0 || FloorMod(count, skipEvery) != 0 {
        return;
      }
      cam.picNum[ringIndex] := UInt16(count);
      if ringIndex >= cam.ring.Length || cam.imageArray.None?
         || !Assignable(cam.imageArray.value.shape, cam.ring[ringIndex].shape) {
        return;
      }
      cam.ring[ringIndex] := cam.ring[ringIndex].(frame := cam.imageArray.value.frame);
      cam.semaphore := cam.semaphore + 1;
      ringIndex := Advance(ringIndex);
    }
  }

  /** `CorrectionThread`: takes ring slots as the semaphore hands them over, crops them and
      sends them to the client. */
  class CorrectionThread {
    const cam: Camera
    var corrRot: int
    var client: bool
    var skipLeft: int
    var skipRight: int
    var skipTop: int
    var skipBottom: int
    /** The shape of the input array setImage hands it. */
    var imageIn: Shape
    var newImage: Image
    var ringIndex: int
    /** The images the client has been sent. */
    var sent: seq<Image>

    constructor (cam: Camera)
      ensures this.cam == cam
      ensures State() == CorrectionState(0, false, 0, 0, 0, 0, Shape(512, 512), Image(Shape(512, 512), 0), 0, [])
    {
      this.cam := cam;
      corrRot, client := 0, false;
      skipLeft, skipRight, skipTop, skipBottom := 0, 0, 0, 0;
      imageIn, newImage := Shape(512, 512), Image(Shape(512, 512), 0);
      ringIndex, sent := 0, [];
    }

    function State(): CorrectionState
      reads this
    {
      CorrectionState(corrRot, client, skipLeft, skipRight, skipTop, skipBottom, imageIn, newImage, ringIndex, sent)
    }

    /** What a pass changes, and what it reads from the camera and the exposure thread. */
    function ConsumerView(): Consumer
      reads this, cam
    {
      Consumer(ringIndex, cam.semaphore, newImage, sent)
    }

    function FeedFor(sendOk: bool): Feed
      reads this, cam, cam.ring, cam.exposureThread
    {
      Feed(cam.ring[..], skipLeft, skipRight, skipTop, skipBottom,
           if cam.exposureThread == null then None else Some(cam.exposureThread.ringIndex), client, sendOk)
    }

    /** One pass of `run1`'s loop, given whether sending to the client goes through. Returns the
        occupancy it prints, when it gets that far. */
    method Cycle(sendOk: bool) returns (buffers: Option<int>)
      requires 0 <= ringIndex < BUFFER_LENGTH
      requires cam.exposureThread != null ==> 0 <= cam.exposureThread.ringIndex < BUFFER_LENGTH
      modifies this`ringIndex, this`newImage, this`sent, cam`semaphore
      ensures 0 <= ringIndex < BUFFER_LENGTH
      ensures ConsumerView() == Consumed(old(ConsumerView()), old(FeedFor(sendOk)))
      ensures buffers == Buffers(old(ConsumerView()), old(FeedFor(sendOk)))
    {
      buffers := None;
      if cam.semaphore <= 0 {
        return;
      }
      cam.semaphore := cam.semaphore - 1;
      var i := ringIndex;
      ringIndex := Advance(i);
      if i >= cam.ring.Length
         || !Assignable(CropShape(cam.ring[i].shape, skipLeft, skipRight, skipTop, skipBottom), newImage.shape) {
        return;
      }
      newImage := newImage.(frame := cam.ring[i].frame);
      if cam.exposureThread == null {
        return;
      }
      buffers := Some(Occupancy(cam.exposureThread.ringIndex, i));
      if client && sendOk {
        sent := sent + [newImage];
      }
    }
  }
}
