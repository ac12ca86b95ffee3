/** andor.py's status sharing: the cells a camera server publishes for other processes,
    and one pass of the thread that keeps them current. */
module Status {
  import opened Python
  import opened Driver
  import opened Settings
  import Session

  /** Storing a Python value into a ctypes `c_int` cell: ints and bools wrap to 32 bits,
      a float or None is refused with TypeError. */
  function IntCell(v: Value): (r: Result<int>)
    ensures r.Ok? ==> -0x8000_0000 <= r.value < 0x8000_0000
    ensures r.Raise? <==> v.VReal? || v.VNone?
    ensures r.Raise? ==> r.error == TypeError
    ensures v.VInt? ==> r == Ok(Int32(v.i))
    ensures v.VBool? ==> r == Ok(if v.b then 1 else 0)
  {
    match v
    case VInt(i) => Ok(Int32(i))
    case VBool(b) => Ok(if b then 1 else 0)
    case _ => Raise(TypeError)
  }

  /** `settings.get('EMGain', 0)`, as the status cell receives it. */
  function GainFor(s: SettingMap): Value {
    if EM_GAIN in s then s[EM_GAIN] else VInt(0)
  }

  /** A camera that was never given a gain publishes 0; one given an int publishes it. */
  lemma GainCellDefault(s: SettingMap)
    ensures EM_GAIN !in s ==> IntCell(GainFor(s)) == Ok(0)
    ensures EM_GAIN in s && s[EM_GAIN].VInt? && -0x8000_0000 <= s[EM_GAIN].i < 0x8000_0000 ==>
      IntCell(GainFor(s)) == Ok(s[EM_GAIN].i)
  {
  }

  /** The values of all the status cells at one moment. */
  datatype Cells = Cells(
    pid: int, armed: bool, enabled: bool, count: int, port: int, ready: bool,
    serial: int, temperature: int, emGain: int, validTemperature: bool, live: bool)

  /** A live status always carries the (non-zero) serial number that made it live. */
  predicate Consistent(c: Cells) {
    c.live ==> c.serial != 0
  }

  /** `StatusObject`: shared `c_int`/`c_bool` cells, all zero or false to begin with. */
  class StatusObject {
    var pid: int
    var armed: bool
    var enabled: bool
    var count: int
    var port: int
    var ready: bool
    var serial: int
    var temperature: int
    var emGain: int
    var validTemperature: bool
    /** Whether a serial number has been read, i.e. the camera's driver is up. */
    var live: bool

    function View(): Cells
      reads this
    {
      Cells(pid, armed, enabled, count, port, ready, serial, temperature, emGain, validTemperature, live)
    }

    constructor ()
      ensures View() == Cells(0, false, false, 0, 0, false, 0, 0, 0, false, false)
      ensures Consistent(View())
    {
      pid, armed, enabled, count, port, ready := 0, false, false, 0, 0, false;
      serial, temperature, emGain := 0, 0, 0;
      validTemperature, live := false, false;
    }
  }

  /** `StatusThread`: polls one camera and writes what it sees into the status cells. */
  class StatusThread {
    const cam: Session.Camera
    const status: StatusObject
    var shouldQuit: bool

    /** Creating the thread publishes the port its camera is served on. */
    constructor (cam: Session.Camera, port: int, status: StatusObject)
      modifies status
      ensures this.cam == cam && this.status == status && !shouldQuit
      ensures status.View() == old(status.View()).(port := Int32(port))
    {
      this.cam, this.status := cam, status;
      status.port := Int32(port);
      shouldQuit := false;
    }

    /** The serial number a tick reads from the driver, when the read goes through. */
    function SerialRead(): Result<int> {
      if cam.SelectOk() && cam.Returns(GetCameraSerialNumber)
      then Ok(Int32(cam.dll.answer(GetCameraSerialNumber).Out(0))) else Raise(DriverFault)
    }

    /** The temperature a tick reads from the driver, when the read goes through. */
    function TemperatureRead(): Result<int> {
      if cam.SelectOk() && cam.Returns(GetTemperature)
      then Ok(Int32(cam.dll.answer(GetTemperature).Out(0))) else Raise(DriverFault)
    }

    /** The cells after a tick that finds the status not yet live: only a truthy serial
        number makes it live, and a read that raises is swallowed. */
    function Discovered(c: Cells): (d: Cells)
      ensures d.live <==> c.live || (SerialRead().Ok? && SerialRead().value != 0)
      ensures d.serial == if SerialRead().Ok? && SerialRead().value != 0 then SerialRead().value else c.serial
      ensures Consistent(c) ==> Consistent(d)
      ensures d.(serial := c.serial, live := c.live) == c
    {
      if SerialRead().Ok? && SerialRead().value != 0 then c.(serial := SerialRead().value, live := true) else c
    }

    /** One pass of `run`'s loop, without the one-second sleep. Until the status is live it
        only looks for a serial number; once live it refreshes the temperature and copies
        the camera's state. A gain setting that is a float or None raises TypeError out of the tick. */
    method Tick() returns (out: Outcome)
      requires cam.Valid() && !cam.hasLock
      modifies status, cam`hasLock, cam`temperatureState, cam.dll
      ensures cam.Kept(old(cam.Snap()), true) && !cam.hasLock
      ensures Consistent(old(status.View())) ==> Consistent(status.View())
      ensures old(status.live) ==> status.live && status.serial == old(status.serial)
      ensures status.pid == old(status.pid) && status.port == old(status.port)
      ensures !old(status.live) ==> out.Pass? && status.View() == Discovered(old(status.View()))
      ensures !old(status.live) ==> cam.dll.calls == old(cam.dll.calls) + cam.Attempted(GetCameraSerialNumber)
      ensures old(status.live) ==> cam.dll.calls == old(cam.dll.calls) + cam.Attempted(GetTemperature)
      ensures old(status.live) ==> status.View() == Refreshed(old(status.View()), TemperatureRead(), old(cam.enabled), old(cam.ready),
        old(cam.armed), old(cam.count), IntCell(GainFor(old(cam.settings))))
      ensures old(status.live) ==> out == (match IntCell(GainFor(cam.settings)) case Ok(_) => Pass case Raise(e) => Fail(e))
    {
      if !status.live {
        out := Pass;
        var serial := cam.SerialNumber();
        if serial.Ok? && serial.value != 0 {
          status.serial := serial.value;
          status.live := true;
        }
      } else {
        out := Refresh();
      }
    }

    /** The cells after a tick on a live status, given the temperature read and the gain
        cell's verdict: the temperature and its validity from the read, the camera's flags
        and count as they are, the gain when the cell accepts it, nothing else. */
    static function Refreshed(c: Cells, t: Result<int>, enabled: bool, ready: bool, armed: bool, count: int,
                              gain: Result<int>): (d: Cells)
      ensures d.validTemperature <==> t.Ok?
      ensures d.temperature == if t.Ok? then t.value else c.temperature
      ensures d.enabled == enabled && d.ready == ready && d.armed == armed && d.count == Int32(count)
      ensures d.emGain == if gain.Ok? then gain.value else c.emGain
      ensures d.(validTemperature := c.validTemperature, temperature := c.temperature, enabled := c.enabled,
        ready := c.ready, armed := c.armed, count := c.count, emGain := c.emGain) == c
    {
      c.(validTemperature := t.Ok?, temperature := if t.Ok? then t.value else c.temperature,
         enabled := enabled, ready := ready, armed := armed, count := Int32(count),
         emGain := if gain.Ok? then gain.value else c.emGain)
    }

    /** The live half of a tick. */
    method Refresh() returns (out: Outcome)
      requires cam.Valid() && !cam.hasLock
      modifies status, cam`hasLock, cam`temperatureState, cam.dll
      ensures cam.Kept(old(cam.Snap()), true) && !cam.hasLock
      ensures cam.dll.calls == old(cam.dll.calls) + cam.Attempted(GetTemperature)
      ensures status.View() == Refreshed(old(status.View()), TemperatureRead(), old(cam.enabled), old(cam.ready),
        old(cam.armed), old(cam.count), IntCell(GainFor(old(cam.settings))))
      ensures out == (match IntCell(GainFor(cam.settings)) case Ok(_) => Pass case Raise(e) => Fail(e))
    {
      var t := ReadTemperature();
      out := Publish();
    }

    /** The temperature part of a live tick: a read that raises only marks the temperature invalid. */
    method ReadTemperature() returns (t: Result<int>)
      requires cam.Valid() && !cam.hasLock
      modifies status`validTemperature, status`temperature, cam`hasLock, cam`temperatureState, cam.dll
      ensures cam.Kept(old(cam.Snap()), true) && !cam.hasLock
      ensures cam.dll.calls == old(cam.dll.calls) + cam.Attempted(GetTemperature)
      ensures t == TemperatureRead()
      ensures status.View() == old(status.View()).(validTemperature := t.Ok?,
        temperature := if t.Ok? then t.value else old(status.temperature))
    {
      t := cam.Temperature();
      status.validTemperature, status.temperature := t.Ok?, if t.Ok? then t.value else status.temperature;
    }

    /** The copying part of a live tick: the camera's flags, its count as a `c_int`, and the gain
        setting when a `c_int` accepts it. */
    method Publish() returns (out: Outcome)
      modifies status`enabled, status`ready, status`armed, status`count, status`emGain
      ensures status.View() == old(status.View()).(enabled := cam.enabled, ready := cam.ready, armed := cam.armed,
        count := Int32(cam.count),
        emGain := if IntCell(GainFor(cam.settings)).Ok? then IntCell(GainFor(cam.settings)).value else old(status.emGain))
      ensures out == (match IntCell(GainFor(cam.settings)) case Ok(_) => Pass case Raise(e) => Fail(e))
    {
      status.enabled, status.ready, status.armed, status.count := cam.enabled, cam.ready, cam.armed, Int32(cam.count);
      var gain := IntCell(GainFor(cam.settings));
      if gain.Raise? {
        return Fail(gain.error);
      }
      status.emGain := gain.value;
      out := Pass;
    }
  }
}
