/** andor.py's CameraServer: the process that owns one camera, binds its serial number to
    a network address and publishes it. */
module Server {
  import opened Python
  import opened Driver
  import Session
  import Status

  /** Where a camera is served. */
  datatype Address = Address(host: string, port: int)

  const LOCALHOST: string := "127.0.0.1"

  /** The serial-number tables the server is built with. */
  const SERIAL_TO_HOST: map<int, string> := map[9145 := LOCALHOST, 9146 := LOCALHOST]
  const SERIAL_TO_PORT: map<int, int> := map[9145 := 7776, 9146 := 7777]

  /** The message both failed lookups raise. */
  function NoHostMessage(serial: int): string {
    "No host found for camera with serial number " + IntStr(serial) + "."
  }

  function IndexMessage(index: int, count: int): string {
    "Camera index " + IntStr(index) + " too large: I only have " + IntStr(count) + " cameras."
  }

  /** serve's lookup of a serial number: a serial missing from either table raises, otherwise
      the host and port are those the tables give it. */
  function Lookup(hosts: map<int, string>, ports: map<int, int>, serial: int): (r: Result<Address>)
    ensures r.Ok? <==> serial in hosts && serial in ports
    ensures r.Ok? ==> r.value == Address(hosts[serial], ports[serial])
    ensures r.Raise? ==> r.error == Failure(NoHostMessage(serial))
  {
    if serial !in hosts then Raise(Failure(NoHostMessage(serial)))
    else if serial !in ports then Raise(Failure(NoHostMessage(serial)))
    else Ok(Address(hosts[serial], ports[serial]))
  }

  /** With the built-in tables exactly the two known cameras are served, both on the local
      host, and on different ports. */
  lemma KnownCameras(serial: int)
    ensures Lookup(SERIAL_TO_HOST, SERIAL_TO_PORT, serial).Ok? <==> serial == 9145 || serial == 9146
    ensures serial == 9145 ==> Lookup(SERIAL_TO_HOST, SERIAL_TO_PORT, serial) == Ok(Address(LOCALHOST, 7776))
    ensures serial == 9146 ==> Lookup(SERIAL_TO_HOST, SERIAL_TO_PORT, serial) == Ok(Address(LOCALHOST, 7777))
  {
  }

  /** Two cameras that are both served never share a port, so their daemons cannot clash. */
  lemma DistinctPorts(a: int, b: int)
    requires Lookup(SERIAL_TO_HOST, SERIAL_TO_PORT, a).Ok? && Lookup(SERIAL_TO_HOST, SERIAL_TO_PORT, b).Ok?
    requires a != b
    ensures Lookup(SERIAL_TO_HOST, SERIAL_TO_PORT, a).value.port != Lookup(SERIAL_TO_HOST, SERIAL_TO_PORT, b).value.port
  {
    KnownCameras(a);
    KnownCameras(b);
  }

  /** The number of cameras the driver reports (a `c_long`). */
  function CameraCount(answer: Fn -> Reply): int {
    Int32(answer(GetAvailableCameras).Out(0))
  }

  /** The handle the driver gives camera `index`. */
  function HandleOf(answer: Fn -> Reply, index: int): Handle {
    Int32(answer(GetCameraHandle(index)).Out(0))
  }

  /** The serial number the camera reports (a `c_int`). */
  function SerialOf(answer: Fn -> Reply): int {
    Int32(answer(GetCameraSerialNumber).Out(0))
  }

  /** The camera serve opens: counting the cameras, checking the index, fetching the handle and
      selecting the camera, the first step that raises deciding. */
  function Located(answer: Fn -> Reply, index: int): (r: Result<Handle>)
    ensures r.Ok? <==>
      !answer(GetAvailableCameras).Raised? && index < CameraCount(answer)
      && !answer(GetCameraHandle(index)).Raised?
      && !answer(SetCurrentCamera(HandleOf(answer, index))).Raised?
    ensures r.Ok? ==> r.value == HandleOf(answer, index)
    ensures !answer(GetAvailableCameras).Raised? && index >= CameraCount(answer) ==>
      r == Raise(Failure(IndexMessage(index, CameraCount(answer))))
  {
    if answer(GetAvailableCameras).Raised? then Raise(DriverFault)
    else if index >= CameraCount(answer) then Raise(Failure(IndexMessage(index, CameraCount(answer))))
    else if answer(GetCameraHandle(index)).Raised? then Raise(DriverFault)
    else if answer(SetCurrentCamera(HandleOf(answer, index))).Raised? then Raise(DriverFault)
    else Ok(HandleOf(answer, index))
  }

  /** The calls made while locating the camera (selections are counted apart): the handle is
      fetched only for an index the driver has. */
  function LocateCalls(answer: Fn -> Reply, index: int): (calls: seq<Fn>)
    ensures GetCameraHandle(index) in calls <==> !answer(GetAvailableCameras).Raised? && index < CameraCount(answer)
  {
    if answer(GetAvailableCameras).Raised? || index >= CameraCount(answer) then [GetAvailableCameras]
    else [GetAvailableCameras, GetCameraHandle(index)]
  }

  /** Opening the located camera: initialising it, then reading its serial number. */
  function Identified(answer: Fn -> Reply): (r: Result<int>)
    ensures r.Ok? <==> !answer(Initialize).Raised? && !answer(GetCameraSerialNumber).Raised?
    ensures r.Ok? ==> r.value == SerialOf(answer)
  {
    if answer(Initialize).Raised? || answer(GetCameraSerialNumber).Raised? then Raise(DriverFault)
    else Ok(SerialOf(answer))
  }

  function IdentifyCalls(answer: Fn -> Reply): seq<Fn> {
    [Initialize] + if answer(Initialize).Raised? then [] else [GetCameraSerialNumber]
  }

  /** Where serve publishes the camera, or what it raises: only a camera that was located and
      identified is looked up, and a serial number missing from either table raises. */
  function Served(answer: Fn -> Reply, index: int, hosts: map<int, string>, ports: map<int, int>): (r: Result<Address>)
    ensures r.Ok? <==>
      Located(answer, index).Ok? && Identified(answer).Ok?
      && SerialOf(answer) in hosts && SerialOf(answer) in ports
    ensures r.Ok? ==> r.value == Address(hosts[SerialOf(answer)], ports[SerialOf(answer)])
    ensures Located(answer, index).Raise? ==> r == Raise(Located(answer, index).error)
  {
    match Located(answer, index)
    case Raise(e) => Raise(e)
    case Ok(_) =>
      match Identified(answer)
      case Raise(e) => Raise(e)
      case Ok(serial) => Lookup(hosts, ports, serial)
  }

  /** The driver calls serve makes before it either raises or publishes the camera. */
  function ServeCalls(answer: Fn -> Reply, index: int): seq<Fn> {
    LocateCalls(answer, index) + if Located(answer, index).Ok? then IdentifyCalls(answer) else []
  }

  /** An index beyond the cameras the driver reports raises before any handle is fetched. */
  lemma IndexCheckedFirst(answer: Fn -> Reply, index: int)
    requires !answer(GetAvailableCameras).Raised? && index >= CameraCount(answer)
    ensures Served(answer, index, SERIAL_TO_HOST, SERIAL_TO_PORT) == Raise(Failure(IndexMessage(index, CameraCount(answer))))
    ensures ServeCalls(answer, index) == [GetAvailableCameras]
  {
  }

  /** With the built-in tables, a camera is published exactly when it was located and identified
      with one of the two known serial numbers. */
  lemma ServedKnown(answer: Fn -> Reply, index: int)
    ensures Served(answer, index, SERIAL_TO_HOST, SERIAL_TO_PORT).Ok? <==>
      Located(answer, index).Ok? && Identified(answer).Ok? && SerialOf(answer) in {9145, 9146}
  {
    KnownCameras(SerialOf(answer));
  }

  /** The driver's camera list, as serve reads it directly (not through a camera session). */
  method Locate(dll: Dll, index: int) returns (r: Result<Handle>)
    requires dll.Valid()
    modifies dll
    ensures dll.Valid() && dll.lockOps == old(dll.lockOps)
    ensures r == Located(dll.answer, index)
    ensures dll.calls == old(dll.calls) + LocateCalls(dll.answer, index)
  {
    var count := dll.Call(GetAvailableCameras, Process);
    if count.Raised? {
      return Raise(DriverFault);
    }
    var n := Int32(count.Out(0));
    if index >= n {
      return Raise(Failure(IndexMessage(index, n)));
    }
    var h := dll.Call(GetCameraHandle(index), Process);
    if h.Raised? {
      return Raise(DriverFault);
    }
    var handle := Int32(h.Out(0));
    var selected := dll.Call(SetCurrentCamera(handle), Process);
    if selected.Raised? {
      return Raise(DriverFault);
    }
    r := Ok(handle);
  }

  /** `cam.Initialize('')`, then the serial number, on the singleton session. */
  method Identify(c: Session.Camera) returns (r: Result<int>)
    requires c.Valid() && c.singleton
    modifies c`hasLock, c.dll
    ensures c.Valid() && c.dll.lockOps == old(c.dll.lockOps) && c.dll.selects == old(c.dll.selects)
    ensures r == Identified(c.dll.answer)
    ensures c.dll.calls == old(c.dll.calls) + IdentifyCalls(c.dll.answer)
  {
    var init := c.Wrapped(Initialize);
    if init.Raised? {
      return Raise(DriverFault);
    }
    r := c.SerialNumber();
  }

  /** The status cells once serve has started the status thread, as written: the thread
      publishes the port, and the pid cell is left as it was. */
  function ServedCells(c: Status.Cells, pid: int, port: int): Status.Cells {
    c.(port := Int32(port))
  }

  /** The status cells serve evidently means to leave: the pid and the port published. */
  function ServedCellsIntended(c: Status.Cells, pid: int, port: int): Status.Cells {
    c.(pid := Int32(pid), port := Int32(port))
  }

  /** As written, the shared pid cell never changes, whatever the process id. */
  lemma ServedCellsKeepPid(c: Status.Cells, pid: int, port: int)
    ensures ServedCells(c, pid, port).pid == c.pid
    ensures ServedCells(c, pid, port).port == Int32(port)
  {
  }

  /** So a status that was just created still shows pid 0 for a server running as process
      4242, where the intended write shows 4242. */
  lemma PidNotPublished()
    ensures var initial := Status.Cells(0, false, false, 0, 0, false, 0, 0, 0, false, false);
      ServedCells(initial, 4242, 7776).pid == 0 && ServedCellsIntended(initial, 4242, 7776).pid == 4242
  {
  }

  /** With the intended write, the pid cell shows the process id (which fits a `c_int`) and
      the port cell the port, and no other cell changes. */
  lemma ServedCellsIntendedPublishPid(c: Status.Cells, pid: int, port: int)
    requires 0 <= pid < 0x8000_0000
    ensures ServedCellsIntended(c, pid, port).pid == pid
    ensures ServedCellsIntended(c, pid, port).port == Int32(port)
    ensures ServedCellsIntended(c, pid, port).(pid := c.pid, port := c.port) == c
  {
  }

  /** `CameraServer`: serves the camera at one index of the driver's list. */
  class CameraServer {
    const index: int
    const status: Status.StatusObject?
    const serialToHost: map<int, string>
    const serialToPort: map<int, int>
    var cam: Session.Camera?

    constructor (index: int, status: Status.StatusObject?)
      ensures this.index == index && this.status == status && cam == null
      ensures serialToHost == SERIAL_TO_HOST && serialToPort == SERIAL_TO_PORT
    {
      this.index, this.status := index, status;
      serialToHost, serialToPort := SERIAL_TO_HOST, SERIAL_TO_PORT;
      cam := null;
    }

    /** The part of `serve` before the status is published: the camera is located, opened
        as a singleton session (it is the process's only one, so it is selected once,
        directly), identified and looked up. */
    method Open(dll: Dll) returns (r: Result<Address>)
      requires dll.Valid()
      modifies this`cam, dll
      ensures dll.Valid() && dll.lockOps == old(dll.lockOps)
      ensures r == Served(dll.answer, index, serialToHost, serialToPort)
      ensures dll.calls == old(dll.calls) + ServeCalls(dll.answer, index)
      ensures r.Ok? ==>
        cam != null && fresh(cam) && cam.dll == dll && cam.singleton && cam.handle == HandleOf(dll.answer, index)
    {
      var handle := Locate(dll, index);
      if handle.Raise? {
        return Raise(handle.error);
      }
      var c := new Session.Camera(handle.value, true, dll);
      cam := c;
      var serial := Identify(c);
      if serial.Raise? {
        return Raise(serial.error);
      }
      r := Lookup(serialToHost, serialToPort, serial.value);
    }

    /** `serve`, up to starting the network daemon, which is returned as the address it would
        listen on; `pid` is the process id. A status thread is created only once the address
        is known, and publishes that address's port. `self.status.pid = self.pid` replaces
        the status object's `pid` attribute in this process by a plain int, so the shared
        pid cell keeps the value it had. */
    method Serve(dll: Dll, pid: int) returns (r: Result<Address>, thread: Status.StatusThread?)
      requires dll.Valid()
      modifies this`cam, dll, status
      ensures dll.Valid() && dll.lockOps == old(dll.lockOps)
      ensures r == Served(dll.answer, index, serialToHost, serialToPort)
      ensures dll.calls == old(dll.calls) + ServeCalls(dll.answer, index)
      ensures r.Ok? ==>
        cam != null && fresh(cam) && cam.dll == dll && cam.singleton && cam.handle == HandleOf(dll.answer, index)
      ensures (thread != null) <==> r.Ok? && status != null
      ensures thread != null ==>
        fresh(thread) && thread.cam == cam && thread.status == status
      ensures thread != null ==> status.View() == ServedCells(old(status.View()), pid, r.value.port)
      ensures thread == null && status != null ==> status.View() == old(status.View())
    {
      thread := null;
      r := Open(dll);
      if r.Ok? && status != null {
        thread := new Status.StatusThread(cam, r.value.port, status);
      }
    }

    /** `serve` as it is evidently meant to be, with the process id stored into the shared
        pid cell (`self.status.pid.value = self.pid`) before the status thread starts. */
    method ServeIntended(dll: Dll, pid: int) returns (r: Result<Address>, thread: Status.StatusThread?)
      requires dll.Valid()
      modifies this`cam, dll, status
      ensures dll.Valid() && dll.lockOps == old(dll.lockOps)
      ensures r == Served(dll.answer, index, serialToHost, serialToPort)
      ensures dll.calls == old(dll.calls) + ServeCalls(dll.answer, index)
      ensures r.Ok? ==>
        cam != null && fresh(cam) && cam.dll == dll && cam.singleton && cam.handle == HandleOf(dll.answer, index)
      ensures (thread != null) <==> r.Ok? && status != null
      ensures thread != null ==>
        fresh(thread) && thread.cam == cam && thread.status == status
      ensures thread != null ==> status.View() == ServedCellsIntended(old(status.View()), pid, r.value.port)
      ensures thread == null && status != null ==> status.View() == old(status.View())
    {
      thread := null;
      r := Open(dll);
      if r.Ok? && status != null {
        status.pid := Int32(pid);
        thread := new Status.StatusThread(cam, r.value.port, status);
      }
    }
  }
}
