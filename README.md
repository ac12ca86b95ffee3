# pyAndor camera servers, modelled in Dafny

pyAndor runs Andor EM-CCD cameras behind network servers. This project models the camera
logic of its two servers and proves properties of that model. The driver itself is not
modelled. Wherever the Python code calls the vendor driver, the model asks an oracle.

- **andor.py.** Each camera gets its own process, a `CameraServer`. The server locates
  the camera in the driver's list, identifies it by serial number and publishes it at the
  address its serial number maps to. A `Camera` session wraps every driver function in
  `with_camera`. For a camera that is not alone in its process, `with_camera` takes a
  process-wide lock on the driver (unless the session holds it already), selects the
  camera, and releases the lock on the way out. The session also has a small acquisition
  state machine:
  - `enable` recovers the camera, reads its size and capabilities, and sets up cooling;
  - it then re-applies the settings through `update_settings` and prepares single-scan,
    externally triggered acquisition;
  - `arm` opens the shutter and starts the acquisition;
  - `disable`, `make_safe` and `__exit__` make the camera safe again.

  A `StatusThread` copies the camera's state into cells shared with other processes.
- **andorIxon.py.** A single iXon camera sits behind a wrapper, `andorWrap`. It calls each
  driver binding under one non-blocking lock and turns status codes into exceptions. A
  binding that raises leaves the lock taken. The `Camera` caches the last value each setter
  gave the driver. `setImage` computes the readout window and allocates a ring of 100
  image buffers. An exposure thread fills the ring; a correction thread crops its slots
  and sends them to the client. The threads hand slots over through a semaphore.

Module layout:

- `python.dfy`: the Python semantics the model needs:
  - floor division and modulo;
  - ctypes wrap-around;
  - `str()` of an int, with its inverse;
  - an exception type.
- `andor_sdk.dfy`: the SDK constants the camera logic tests.
- `driver.dfy`: the driver behind andor.py, as a class. It holds:
  - the oracle;
  - the lock;
  - the current camera;
  - a ghost trace of every lock operation and call.

  `Valid()` says every call in the trace respects `with_camera`'s discipline.
- `settings.dfy`: the settings dictionary, Python's casts, `SETTERS`, and the choice of
  keys `update_settings` walks.
- `session.dfy`: andor.py's `Camera`.
- `status.dfy`: `StatusObject` and one tick of `StatusThread`.
- `server.dfy`: `CameraServer.serve`.
- `ixon_driver.dfy`: `convertErrorToDesc`, the result translation and the lock of
  `wrappedAndorFunc`.
- `ixon_geometry.dfy`: setImage's window arithmetic, numpy slice and broadcast shapes, the
  rotation table and the ring indices.
- `ixon_ring.dfy`: one exposure event and one correction pass, as functions on values.
- `ixon.dfy`: andorIxon.py's `Camera`, `ExposureThread` and `CorrectionThread`, as classes
  whose methods are proved against those functions.

How the driver is modelled:

- **andor.py.** A driver call either raises or returns a status and the values of its
  output parameters.
- **andorIxon.py.** A binding either raises or returns a Python value. The value is None,
  an int, a list, or something opaque.
- **Where the model says what happened.** Every class records the calls made, in order, in
  a ghost log. Method contracts state when the method succeeds, what it raises, and the
  new value of the fields it changes. Most state the log exactly on every path. A method
  that stops at its first failed driver call states its log as `Upto` of the calls it
  would make: those calls up to and including the first one the driver raises on.
  update_settings walks its keys in no fixed order. So on failure its log holds the
  setter calls of the keys walked so far, as a sub-multiset of those of all the keys.
  The lines under "## Left out" that start with a member's name say where a contract
  states less.

## Model

| member | source | states |
|---|---|---|
| Driver.DisciplinedEvery | andor.py:93-125 | A trace is disciplined exactly when each of its events is: a guarded session calls the driver only while holding the lock, and only on its own camera unless it is selecting it. |
| Driver.Dll.Acquire | andor.py:104-106 | Taking the lock records a lock operation and changes nothing else. |
| Driver.Dll.Release | andor.py:111-118 | Releasing the lock records a lock operation and frees it. |
| Driver.Dll.Call | andor.py:142-155 | A call returns the oracle's reply and keeps the lock as it was. Only a successful SetCurrentCamera moves the current camera. Selections are counted apart from other calls. |
| AndorSdk.HasBitMask | andor.py:354-366 | Testing a capability bit with `&` is the same as testing whether `flags / 2^k` is odd. |
| AndorSdk.EmGainMask | andor.py:354-366 | The EM-gain capability is bit 4, whose mask is 0x10. |
| Session.SafeCallsShape | andor.py:354-366 | make_safe zeroes the EM gain exactly when the capability bit is set. It selects the conventional amplifier exactly on camera types 17, 1, 21 and 8. It makes no other call, and the gain comes first. |
| Session.ExposureFor | andor.py:326-337 | A never-assigned mode raises AttributeError. A mode outside 1..5 gives None. Otherwise the result is one of the three timings. |
| Session.ExposureForModes | andor.py:326-337 | Modes 1 and 5 read the exposure time, mode 2 the accumulate cycle, and modes 3 and 4 the kinetic cycle. |
| Session.Camera.constructor | andor.py:189-222 | A new session holds no lock, is not enabled, ready or armed, and has empty settings and zeroed temperature fields. |
| Session.Camera.Enter | andor.py:101-109 | A guarded session takes the lock unless it holds it, selects its camera and then acts on it. A singleton's lock state and selections stay as they were. |
| Session.Camera.Leave | andor.py:111-118 | After a raise a held lock is released. After a normal return only the call that took the lock releases it. |
| Session.Camera.Wrapped | andor.py:93-125 | A driver method installed by CameraMeta returns the driver's reply once the selection succeeds. In that case it makes exactly that call. A top-level guarded call takes and releases the lock once; a nested one keeps the caller's lock. |
| Session.Camera.Abort | andor.py:225-228 | Succeeds exactly when selection and AbortAcquisition return. Then it clears `ready`. |
| Session.Camera.IsReady | andor.py:574-578 | Ready means the temperature status is DRV_TEMP_STABILIZED and the camera is enabled. The answer is stored in `ready`. |
| Session.Camera.Arm | andor.py:231-247 | Refuses while not ready, before touching the shutter. Otherwise it opens the shutter, zeroes the count, sets `armed` and starts the acquisition. The calls made are exactly those three. |
| Session.Camera.MakeSafe | andor.py:354-366 | Succeeds exactly when the calls SafeCalls lists go through. It makes those calls up to the first that raises, and then fails with the driver's error. |
| Session.Camera.Disable | andor.py:250-257 | Clears `enabled` and tries to abort, ignoring a failure. Then it runs make_safe's calls up to the first that raises. |
| Session.Camera.Exit | andor.py:174-186 | Shuts the driver down, ignoring a failure. After entering, it clears `enabled`, `armed` and `ready`. |
| Session.Camera.SelectAcquisitionMode | andor.py:589-592 | The mode is recorded exactly when SetAcquisitionMode returns. |
| Session.Camera.AcquisitionTimings | andor.py:438-444 | Returns the three timings the driver wrote, or raises. |
| Session.Camera.ExposureTime | andor.py:326-337 | Returns ExposureFor of the current mode and the timings the driver wrote. |
| Session.Camera.SerialNumber | andor.py:464-468 | Returns the serial number as a c_int, or raises. |
| Session.Camera.Temperature | andor.py:539-543 | Returns the temperature and records the status code of the read. |
| Session.Camera.Detector | andor.py:477-483 | nx and ny are the detector size the driver reports, as c_int values. |
| Session.Camera.Capabilities | andor.py:471-474 | The set-function flags and the camera type are the driver's, as unsigned 32-bit values. |
| Session.Camera.FastestVsSpeed | andor.py:523-529 | Returns the recommended vertical shift speed index, as a c_int, and the speed the driver wrote. |
| Session.Camera.UseFastestVsSpeed | andor.py:608-613 | Reads the recommended index and applies it, then returns the speed. The SetVSSpeed call is made only when the read returns. |
| Session.Camera.Recover | andor.py:392-397 | Aborts, or when the abort raises, calls Initialize(''). It fails only when both raise. |
| Session.Camera.ApplySetter | andor.py:417-426 | A key without a setter is skipped. Otherwise the value is cast as SETTERS says and the setter called. It succeeds exactly when the cast and the call go through. |
| Session.Camera.ApplySetters | andor.py:417-426 | Succeeds exactly when every walked key goes through. When it does, its calls are the setter calls of the walked keys, in some order. When it fails, they are the calls of the keys walked so far. It raises the driver's error or the cast's TypeError. |
| Session.Camera.WalkKey | andor.py:417-426 | One key of the loop extends the lock state, the call log and the walked keys together. |
| Session.Camera.UpdateSettings | andor.py:388-432 | Succeeds exactly when selection, recovery, every walked setter and the speed calls go through. The log on each path stops where the method stops. The settings become the merge of old and new once recovery succeeds. `enabled` ends true exactly on success. A failed call leaves a guarded lock free. |
| Session.Camera.UpdateSettingsBody | andor.py:390-432 | The body of update_settings, inside the lock, with the same outcome, calls and state. |
| Session.Camera.Reapply | andor.py:414-432 | After recovery: merge, walk the keys, recompute the vertical shift speed, and set `enabled` exactly when all of it went through. The speed calls follow only a complete walk. |
| Session.Camera.Cool | andor.py:283-302 | The fan mode: low when water-cooled, otherwise full. Then the temperature range is read and recorded. A given target is clamped into the range and set. Then the cooler is switched on. It succeeds exactly when every one of these calls returns, and it makes them up to the first that raises. |
| Session.Camera.CoolRange | andor.py:283-289 | Sets the fan mode, then records the temperature range the driver reports. The range is read only when the fan mode call returns. |
| Session.Camera.SetTarget | andor.py:292-299 | Without a target nothing is called. With one, the set point is the target clamped into the range, and it is sent to the driver. |
| Session.Camera.Enable | andor.py:265-318 | Succeeds exactly when the prelude, update_settings with `init` and the finish all go through. On success the call log is exact and the mode is single scan. `enabled` is what update_settings left. |
| Session.Camera.EnablePrelude | andor.py:267-302 | Recovery, then the detector, the capabilities and cooling, with their stored values. The log on every path stops at the first call that raises. |
| Session.Camera.Configure | andor.py:278-302 | Detector size, capabilities and cooling, with their stored values. The log on every path stops at the first call that raises. |
| Session.Camera.EnableFinish | andor.py:308-315 | Single-scan mode, external trigger and the recommended vertical shift speed. The log on every path stops at the first call that raises. |
| Session.Camera.EnableBody | andor.py:266-318 | The body of enable, inside the lock, with the same outcome, calls and state. |
| Session.Camera.EnableRest | andor.py:305-318 | update_settings with `init`, then the finish. `enabled` is set after both succeed. |
| Session.Camera.EnableIntended | andor.py:265-318 | enable with a failed body clearing `enabled`: the flag ends true exactly when the whole of enable succeeded. |
| Session.Camera.TriggerFailureLeavesEnabled | andor.py:305-318 | With a driver that refuses only external triggering, selection, the prelude and update_settings succeed and enable fails. Enable's contract then leaves `enabled` true on a call that raised. |
| Session.UptoPrefix | andor.py:109-115 | The calls a method makes before it stops are a prefix of those it would make. They are all of them exactly when the driver returns on each. When fewer are made, the last one made raised. |
| Session.UptoAppend | andor.py:109-115 | Two runs of calls in a row: the second starts only when the whole first run returned. |
| Settings.Trunc | andor.py:48-51 | `int()` of a float truncates towards zero. |
| Settings.SetterCall | andor.py:48-51 | 'exposureTime' calls SetExposureTime on the float cast. 'EMGain' calls SetEMCCDGain on the int cast. A failed cast raises its error. |
| Settings.UpdateKeys | andor.py:401-412 | With `init`, the walked keys are exactly those held before the merge. Without it, they are exactly the incoming keys. |
| Settings.Merge | andor.py:416 | The merge keeps every key, takes the incoming value on a clash and keeps the old value otherwise. |
| Settings.UpdateKeysInMerge | andor.py:401-416 | Every walked key is present in the merged settings. |
| Settings.UnknownKeysSkipped | andor.py:417-426 | Keys without a setter add no call. |
| Settings.SetterCallsMembers | andor.py:417-426 | A call is made exactly when some walked key with a setter produces it from its merged value, and no call is made twice. |
| Settings.SetterCallsStep | andor.py:417-426 | Walking one more key adds exactly that key's call. |
| Settings.WalkStep | andor.py:417-426 | A key that goes through extends the loop's invariant by one key. |
| Settings.UnchangedValueReapplied | andor.py:401-412 | An incremental update re-applies an incoming value even when it is unchanged. |
| Settings.InitSkipsNewKeys | andor.py:401-412 | An initialising update does not walk a key the camera did not hold before. |
| Settings.IntendedUpdateKeysExact | andor.py:401-412 | The key choice the comments describe walks every held or incoming key with `init`, and otherwise only incoming keys that are new or changed. It walks all the keys the code's initialising update walks, and no more than its incremental one. |
| Settings.FanModeFor | andor.py:283-288 | Fan mode 1 exactly when 'isWaterCooled' is truthy, otherwise 0. |
| Settings.Clamp | andor.py:292-298 | `max(t_min, min(t_max, t))` lies in a non-empty range, keeps a value inside it, and clips a value outside it to the nearer end. |
| Status.IntCell | andor.py:697-702 | Storing into a c_int cell wraps ints and bools to 32 bits and raises TypeError for a float or None. |
| Status.GainCellDefault | andor.py:702 | A camera never given a gain publishes 0. One given an int that fits publishes that int. |
| Status.StatusObject.constructor | andor.py:707-721 | Every cell starts at zero or false, which is consistent. |
| Status.StatusThread.constructor | andor.py:659-664 | Creating the thread publishes its port. |
| Status.StatusThread.Discovered | andor.py:674-685 | The status goes live exactly when a truthy serial number was read, and the serial cell then holds the serial read. A falsy or raising read leaves the serial cell as it was. Only serial and live change. |
| Status.StatusThread.Tick | andor.py:672-704 | A tick keeps a live status live with its serial, keeps pid and port, keeps the cells consistent and leaves the lock free. Before live it only looks for the serial number. Once live it refreshes exactly the temperature, the flags, the count and the gain. |
| Status.StatusThread.Refresh | andor.py:686-702 | The live half of a tick: the cells become Refreshed of the temperature read, the camera's state and the gain cell's verdict. |
| Status.StatusThread.Refreshed | andor.py:686-702 | Only the temperature, its validity, the flags, the count and the gain change, each to what was read. |
| Status.StatusThread.ReadTemperature | andor.py:688-695 | A read that raises only marks the temperature invalid. |
| Status.StatusThread.Publish | andor.py:697-702 | Copies the flags and the count. It copies the gain when the cell accepts it and otherwise raises. |
| Server.Lookup | andor.py:807-816 | A serial number missing from either table raises "No host found"; otherwise the address is the tables' host and port. |
| Server.KnownCameras | andor.py:761-769 | With the built-in tables exactly serials 9145 and 9146 are served, on 127.0.0.1 ports 7776 and 7777. |
| Server.DistinctPorts | andor.py:761-769 | Two different served cameras never share a port. |
| Server.Located | andor.py:790-801 | The camera is located exactly when the count, the index check, the handle and the selection all go through. A too-large index raises the index message. |
| Server.LocateCalls | andor.py:790-796 | A handle is fetched exactly when the count returns and the index is below it. |
| Server.Identified | andor.py:803-805 | The camera is identified exactly when Initialize and the serial read both return. |
| Server.Served | andor.py:777-816 | serve publishes exactly when the camera was located, was identified and has a listed serial, at the tables' address. A location failure is passed on. |
| Server.IndexCheckedFirst | andor.py:790-794 | An index beyond the count raises before any handle is fetched, after exactly one call. |
| Server.ServedKnown | andor.py:777-816 | With the built-in tables serve publishes exactly the located, identified cameras whose serial is 9145 or 9146. |
| Server.Locate | andor.py:790-801 | Computes Located with exactly LocateCalls' calls. |
| Server.Identify | andor.py:803-805 | Computes Identified with exactly IdentifyCalls' calls. |
| Server.CameraServer.constructor | andor.py:761-769 | A new server holds the built-in tables and no camera. |
| Server.CameraServer.Open | andor.py:784-816 | The result is Served, with exactly ServeCalls' calls. On success the server holds a fresh singleton session on the located handle. |
| Server.CameraServer.Serve | andor.py:777-821 | As Open, and a status thread is made exactly when the camera is published and status cells exist. The cells then become ServedCells: the port is published and the pid cell keeps its value, because line 819 rebinds the attribute. |
| Server.ServedCellsKeepPid | andor.py:818-820 | As written, the shared pid cell is unchanged whatever the process id, and the port cell holds the port. |
| Server.PidNotPublished | andor.py:818-820 | A fresh status served by process 4242 shows pid 0. The intended write shows 4242. |
| Server.CameraServer.ServeIntended | andor.py:818-820 | serve with the pid stored into the shared cell: the cells become ServedCellsIntended. |
| Server.ServedCellsIntendedPublishPid | andor.py:818-820 | With the intended write, the pid cell shows the process id and the port cell the port, and no other cell changes. |
| IxonDriver.Describe | andorIxon.py:43-49 | A known code gives its DRV_ name; anything else gives "Invalid error code " and its str. |
| IxonDriver.ConvertErrorToDesc | andorIxon.py:43-49 | A list is described by its first element, and an empty list raises IndexError. A scalar is described by itself. |
| IxonDriver.DescribeKnown | andorIxon.py:36-49 | With a table of DRV_ names, a description is a DRV_ name exactly when the code is known. |
| IxonDriver.Translate | andorIxon.py:64-76 | An int other than DRV_SUCCESS raises RuntimeError with its description, and DRV_SUCCESS gives None. A list must start with DRV_SUCCESS: then two elements give the second, and any other length gives the rest. An empty list raises IndexError. Anything else passes through. |
| IxonDriver.TranslateReportsCode | andorIxon.py:43-76 | The RuntimeError raised for a failing status carries exactly convertErrorToDesc of the result. |
| IxonDriver.TranslateListRoundTrip | andorIxon.py:70-76 | A successful list reply loses only its status: putting DRV_SUCCESS back rebuilds it. |
| IxonDriver.AndorWrap.constructor | andorIxon.py:81-92 | A new wrapper's lock is free and its logs are empty. |
| IxonDriver.AndorWrap.Call | andorIxon.py:58-76 | A held lock raises "Function ... locked" without calling. Otherwise the binding is called under the lock. A raise leaves the lock taken; a return releases it and translates the result. |
| IxonDriver.AndorWrap.Direct | andorIxon.py:85-88 | An unwrapped binding is called without lock or translation. |
| IxonDriver.WedgedForever | andorIxon.py:58-76 | After a binding raised, every later wrapped call raises "locked" without reaching the driver. |
| Ixon.ReplayAppend | andorIxon.py:434-528 | Accepting one more call applies that call's cache update. |
| Ixon.ReplayGain | andorIxon.py:434-436 | The cached gain is the argument of the last SetEMCCDGain that went through. |
| Ixon.ReplayIgnores | andorIxon.py:425-431 | Calls that set nothing (GetStatus, SetImage, GetOldestImage16) leave every cache as it was. |
| Ixon.Done | andorIxon.py:58-76 | A call passes exactly when it returned, and otherwise fails with its error. |
| Ixon.Camera.constructor | andorIxon.py:100-154 | A new camera caches nothing, has no threads, an empty ring, 100 exposure-number slots and a semaphore count of 1. |
| Ixon.Camera.Apply | andorIxon.py:58-76 | One wrapped call, and the cache state that follows from the accepted calls. |
| Ixon.Camera.SetGain | andorIxon.py:434-436 | The gain is cached exactly when SetEMCCDGain went through, and the caches keep matching the accepted calls. |
| Ixon.Camera.SetShutterMode | andorIxon.py:443-452 | Calls SetShutter(1, mode, 1, 1) and caches the mode exactly when it went through. |
| Ixon.Camera.SetTrigger | andorIxon.py:455-461 | The trigger mode is cached exactly when the call went through. |
| Ixon.Camera.SetFan | andorIxon.py:464-471 | The fan mode is cached exactly when the call went through. |
| Ixon.Camera.SetAdc | andorIxon.py:484-493 | Always selects AD channel 0. The requested bit depth is cached exactly when that call went through. |
| Ixon.Camera.SetVsSpeed | andorIxon.py:504-506 | The index is cached exactly when the call went through. |
| Ixon.Camera.SetPreAmp | andorIxon.py:526-528 | The index is cached exactly when the call went through. |
| Ixon.Camera.SetCorrRot | andorIxon.py:627-649 | A given rotation is cached before it is checked. A rotation outside -4..3 raises ValueError, and a missing thread raises AttributeError. Otherwise the correction thread gets the rotation the cached amplifier calls for. |
| Ixon.Camera.ApplyOutAmp | andorIxon.py:474-480 | The amplifier is cached exactly when the call went through. |
| Ixon.Camera.SetOutAmp | andorIxon.py:474-481 | The amplifier call; once it goes through, setcorrrot with the new amplifier and the cached rotation. The outcome is the amplifier's error, then ValueError for an illegal rotation, then AttributeError without a correction thread. The thread's rotation changes only on success, and its other fields never change. |
| Ixon.Camera.ApplyHsSpeed | andorIxon.py:509-514 | The amplifier (possibly None) and the index are cached exactly when SetHSSpeed went through. |
| Ixon.Camera.SetHsSpeed | andorIxon.py:509-515 | With no amplifier given the cached one is used. Once the speed call goes through, setcorrrot follows. The outcome is the speed call's error, then ValueError for an illegal rotation, then AttributeError without a correction thread. The thread's rotation changes only on success, and its other fields never change. |
| Ixon.Camera.StatusCheck | andorIxon.py:272-278 | Passing the status part means the status read went through and the binding returned. |
| Ixon.Camera.CheckStatus | andorIxon.py:272-278 | Reads the status. During an acquisition it aborts, unwrapped, and describes the abort's result. Then it reads the status again and describes it. The outcome and calls are StatusCheck and StatusCalls, and the caches are unchanged. The lock stays taken exactly when it was held or GetStatus raised. |
| Ixon.Camera.AbortIfAcquiring | andorIxon.py:273-275 | Only during an acquisition is AbortAcquisition called. A raise, or a failure to describe its result, fails. |
| Ixon.Camera.ResetToSafe | andorIxon.py:271-286 | Succeeds exactly when the status part, shutter mode 1 and gain 0 all go through. After the status part passes, the first of the shutter and gain calls that raises is re-raised. The gain call is made only after the shutter call went through. The lock stays taken after a binding that raised, and each cache changes exactly when its call went through. A failing status part leaves the shutter cache alone. |
| Ixon.Camera.PrepareAcqMode | andorIxon.py:301-322 | Already in the mode: no call. Otherwise the mode is set and cached once the call goes through, and the exposure thread's counter is zeroed. A missing thread raises AttributeError. |
| Ixon.Camera.GetImage | andorIxon.py:425-431 | Without an image array nothing is called. Otherwise the oldest image is read, and the array takes the next frame exactly when the read went through; every failure is swallowed. |
| Ixon.Camera.Windowed | andorIxon.py:539-559 | A window that passes every check has a non-negative shape. |
| Ixon.Camera.ApplyWindow | andorIxon.py:539-559 | Computes Windowed with exactly WindowCalls' calls, and keeps the caches. |
| Ixon.Camera.Allocate | andorIxon.py:562-570 | Allocates a zeroed input array and a fresh ring of 100 arrays of the shape. It resets both threads' ring indices and hands the shape to the correction thread. A missing thread raises AttributeError part-way. |
| Ixon.Camera.SetImageWindow | andorIxon.py:539-572 | Returns the binned shape, or the first error of the checks, the driver and numpy. An error from those allocates nothing. A missing thread raises AttributeError only after the input array and the ring were allocated. |
| Ixon.Camera.SetSkipLRTB | andorIxon.py:579-584 | The skips go to the correction thread first. Then an output array of the input shape less the skips is allocated and handed over. A negative shape raises ValueError. |
| Ixon.Camera.SkipNextNImages | andorIxon.py:654-664 | With no argument, the number still to skip. With one, that number is set. Nothing else changes. |
| Ixon.Camera.SkipEveryNImages | andorIxon.py:667-671 | Sets the skip-every count and restarts the exposure count. |
| Ixon.Camera.StartThreads | andorIxon.py:157-165 | Two fresh threads in their initial states. The correction thread holds the client connection. |
| IxonGeometry.DefaultExtent | andorIxon.py:544-547 | A default extent is a multiple of its bin. For a positive bin and an offset on the chip, it is the largest such multiple that fits. |
| IxonGeometry.ImageWindow | andorIxon.py:545-559 | The window spans the extents from the 1-based offset, and its shape is the extents floor-divided by the bins. In source order: a defaulted extent without a chip size raises AttributeError. A zero bin raises ZeroDivisionError where it is first used. A width, then a height, that its bin does not divide raises ValueError. Every other input gives a window. |
| IxonGeometry.FullChipWindow | andorIxon.py:539-559 | The defaults read the whole chip one-to-one. |
| IxonGeometry.SliceBound | andorIxon.py:907-918 | A slice bound is made absolute and clamped into the array. |
| IxonGeometry.SliceLen | andorIxon.py:907-918 | The length of a Python slice, for the cases the crop uses. |
| IxonGeometry.CropMatchesOut | andorIxon.py:579-584 | For non-negative skips that fit, the correction thread's crop has exactly the shape setskipLRTB allocates. |
| IxonGeometry.NegativeSkipMismatch | andorIxon.py:579-584 | A negative skip is accepted, but crop and output shapes then differ. |
| IxonGeometry.CorrRot | andorIxon.py:627-649 | Rotations -4..3 are accepted, and any other raises ValueError. Without the conventional amplifier the rotation is kept. |
| IxonGeometry.ConventionalTableInvolution | andorIxon.py:635-644 | The conventional amplifier's table undoes itself and moves every rotation. |
| IxonGeometry.ConventionalTableInjective | andorIxon.py:635-644 | The conventional amplifier's table maps different rotations to different ones. |
| IxonGeometry.Advance | andorIxon.py:780-782 | A ring index one step on, modulo 100. |
| IxonGeometry.Occupancy | andorIxon.py:920-921 | The printed occupancy is the producer's index less the consumer's, modulo 100. |
| IxonGeometry.PublishBalanced | andorIxon.py:777-782 | Publishing a frame keeps the indices and the semaphore balanced. |
| IxonGeometry.TakeBalanced | andorIxon.py:904-940 | Taking a frame keeps the balance. |
| IxonGeometry.OccupancyCountsPending | andorIxon.py:920-921 | In a balanced ring the occupancy is the number of frames pending, modulo 100. |
| IxonRing.Produced | andorIxon.py:762-782 | One exposure event keeps the indices in range and the ring's length. |
| IxonRing.ProducedPublishes | andorIxon.py:775-782 | A slot is published exactly when the event is due and the copy works. The slot then takes the frame and the uint16 number, and the index advances. Otherwise pending, index and ring stay. |
| IxonRing.ProducedCounts | andorIxon.py:768-773 | A skipped event only counts down the skip. Any other event is counted. |
| IxonRing.DueEveryNth | andorIxon.py:775 | With `n` positive, exactly the events whose number is a multiple of `n` are due; with 1, every one is. |
| IxonRing.PicNumWraps | andorIxon.py:777 | The 65536th buffered image is numbered 0 in the uint16 array. |
| IxonRing.ProducedTimes | andorIxon.py:762-782 | Repeated events keep the producer well-formed. |
| IxonRing.SkippedEventsPublishNothing | andorIxon.py:654-664 | After skipNextNimages(n), the next n events publish nothing. |
| IxonRing.ProducedBalanced | andorIxon.py:775-782 | An exposure event keeps the ring balanced. |
| IxonRing.Consumed | andorIxon.py:898-940 | One correction pass keeps its index in range. |
| IxonRing.Buffers | andorIxon.py:918-926 | The occupancy is printed exactly when a frame was taken, its crop fits and there is an exposure thread. |
| IxonRing.ConsumedTakes | andorIxon.py:898-940 | A pending frame is always taken and the index moves on, even when the crop or the send raises. Only the current slot's frame enters the output image. The image is sent exactly when the crop fits, there is an exposure thread and a client, and the send goes through. |
| IxonRing.ConsumedBalanced | andorIxon.py:898-940 | A correction pass keeps the ring balanced. |
| IxonRing.BuffersCountPending | andorIxon.py:920-921 | The printed occupancy counts the pending frames, modulo 100. |
| IxonRing.HandOff | andorIxon.py:762-931 | A frame published into the slot the consumer waits on is what its next pass sends. |
| IxonRing.ResetBalanced | andorIxon.py:562-570 | setImage zeroes both indices and leaves the semaphore alone, so the ring stays balanced only when no frame was pending. |
| IxonRing.ConsumerFirstUnbalances | andorIxon.py:751 | If the correction thread takes the semaphore's initial count before the exposure thread does, the ring is unbalanced. The exposure thread's blocking acquire then never returns (Begin needs a positive count), so no frame is produced. |
| IxonRing.ZeroStartWaits | andorIxon.py:751 | With a semaphore that starts at 0 and no initial acquire, a correction pass that runs first changes nothing and the ring starts balanced. |
| Ixon.ExposureThread.constructor | andorIxon.py:714-724 | A new thread skips nothing, counts from 0, buffers every image and starts at slot 0. |
| Ixon.ExposureThread.ProducerView | andorIxon.py:762-782 | A valid thread's view is a well-formed producer. |
| Ixon.ExposureThread.Begin | andorIxon.py:751 | The start of run1 takes one count of the semaphore. |
| Ixon.ExposureThread.Event | andorIxon.py:757-782 | A wait that timed out, or an aborted camera, changes nothing and calls nothing. Otherwise GetOldestImage16 is called when there is an image array. The array takes the next frame exactly when the read goes through, and the lock is wedged when the binding raises. Then the state becomes Produced of the state with that image. |
| Ixon.ExposureThread.Produce | andorIxon.py:768-782 | The part of the event after the read is exactly Produced on the thread's and camera's state. |
| Ixon.CorrectionThread.constructor | andorIxon.py:790-812 | A new thread has no rotation and no skips, 512 by 512 arrays, slot 0 and nothing sent. |
| Ixon.CorrectionThread.Cycle | andorIxon.py:898-940 | One pass of run1's loop is exactly Consumed, and it prints Buffers. |

## Left out

- The driver's behaviour is an oracle that does not change over time. On the andorIxon.py side, CheckStatus's second GetStatus therefore returns what the first did.
- Blocking on the locks, thread scheduling, `win32event` waits and sleeps are not modelled. Each thread is modelled as one step of its loop, with the wait's result as a parameter. The Python `threading.Thread` plumbing and `quit` are left out.
- Pyro, the network daemon, the name server and the client connection are not modelled. A send to the client is a parameter that goes through or raises; serve returns the address the daemon would listen on.
- Floating-point values are modelled as exact reals: setting values, the `float` and `int` casts of SETTERS and SetExposureTime's argument. Rounding is lost. So are NaN and infinity, for which `int()` raises ValueError or OverflowError where the model's cast succeeds. Setting values that are strings are not modelled. The three `c_float` timings of GetAcquisitionTimings are numbers the driver writes, with no arithmetic on them. `picTime_arr` and its clock are left out.
- Pixel contents, `rotateImage` and numpy arithmetic are not modelled. An image array is its shape and which read filled it. Only the shape checks of slicing and broadcasting are modelled.
- `setImgArray_out`'s offset and gain arrays are not modelled. Nor are the dark-LRTB handling or the correction thread's other getters and setters, which only store values.
- The `str` of a function object in the "locked" message is not modelled; the binding's name stands for it.
- `sdk.camerafuncs`, the bindings of `andorSDK.py` and their ctypes marshalling are not modelled. A driver call returns a status and its output values.
- AMPLIFIER_MODES and the amplifier-mode methods, DataThread, CameraManager, report_status, the unused getters, `get_min_time_between_exposures` and `set_exposure_time` are not modelled. None of them is used by the modelled operations.
- Session.Camera.Wrapped: the state the method keeps does not say which camera the driver has selected after the call. The trace discipline in `Dll.Valid` covers which camera each call acted on.
- Ixon.ReplayGain: proves the cached value only for the gain. The other caches follow Step in the same way, and each setter's own ensures states its cache.
- Session.Camera.FastestVsSpeed: the `vs_speed` attribute it stores is not modelled; nothing in andor.py reads it. The speed is a `c_float` the driver writes, kept as that number.
- Session.Camera.UpdateSettings: follows the code's key choice. An initialising update walks the keys held before the merge, not the incoming ones. A non-initialising update walks exactly the incoming keys, because changed keys are incoming keys too. "## Findings" compares this with the comments' intent.
- Session.Camera.Enable: a failure after update_settings leaves `enabled` as update_settings set it (true), because the final assignment is not reached. The model states this as the code has it. "## Findings" compares it with the intent. On failure the contract states the error (DriverFault or a cast's TypeError) but not the log. EnablePrelude, UpdateSettings and EnableFinish state the log of their own part on every path.
- Session.Camera.EnableBody: as Enable, the log is stated only on success.
- Session.Camera.EnableRest: as Enable, the log is stated only on success.
- andorIxon.py's `init` and `start` (andorIxon.py:199-240) are not modelled: the driver's initialisation, the read and DMA modes, the EM gain mode and the event it creates. `start` is the only writer of `chipSizeXY`, and no member here assigns `chipSize`. So on a Camera built by the constructor, setImage with a defaulted extent raises AttributeError.

## Findings

| source | as written | input that shows it | evidently intended | confidence | as-written member | corrected member |
|---|---|---|---|---|---|---|
| andor.py:819 | `self.status.pid = self.pid` rebinds the attribute in the server's process, so the shared `Value` cell keeps 0 | a fresh status served by process 4242: the cell shows 0 | `self.status.pid.value = self.pid`, storing the pid in the shared cell | high, not executed | Server.CameraServer.Serve, Server.PidNotPublished | Server.CameraServer.ServeIntended, Server.ServedCellsIntendedPublishPid |
| andor.py:401-412 | an initialising update walks the keys held before the merge, and an incremental one walks every incoming key | init on an empty camera with `{'EMGain': 5}` calls no setter; an unchanged incoming value is applied again | "set everything" with `init`, otherwise only new and changed values | medium, not executed | Settings.InitSkipsNewKeys, Settings.UnchangedValueReapplied | Settings.IntendedUpdateKeysExact |
| andor.py:305-318 | a raise from set_acquisition_mode, SetTriggerMode or set_fastest_vs_speed, after update_settings has set `enabled`, skips the final assignment, so `enabled` stays true | a driver that refuses only SetTriggerMode(1): enable raises with `enabled` true | the flag false until enable has finished, as its opening comment says the client polls it | medium, not executed | Session.Camera.Enable, Session.Camera.TriggerFailureLeavesEnabled | Session.Camera.EnableIntended |
| andorIxon.py:751 | the semaphore starts at 1 (line 153) and relies on the exposure thread taking it before the correction thread does | the correction thread runs first: it takes slot 0 unpublished, and the exposure thread's acquire blocks forever | a semaphore starting at 0, as the comment at line 154 says, with no initial acquire | medium, not executed | IxonRing.ConsumerFirstUnbalances | IxonRing.ZeroStartWaits |
