/** andorIxon.py's view of the driver: the values the Python bindings return, the
    translation of status codes into exceptions, and `andorWrap`, through which every
    binding but three is called under one shared, non-blocking lock. */
module IxonDriver {
  import opened Python
  import AndorSdk

  /** A Python value that is not a list: None, an `int`, or anything else (a float, a
      bool, a structure), which is never equal to a status code and is shown by its `str`. */
  datatype Scalar = SNone | SInt(i: int) | SOther(text: string)

  /** What a binding returns: a scalar, or a flat list of scalars. */
  datatype PyValue = PScalar(scalar: Scalar) | PList(items: seq<Scalar>)

  /** `str(x)`. */
  function Str(x: Scalar): string {
    match x
    case SNone => "None"
    case SInt(i) => IntStr(i)
    case SOther(t) => t
  }

  /** The constant names of the bindings beginning with `DRV_`, by value. */
  type ErrorTable = map<int, string>

  predicate DrvName(s: string) {
    |s| >= 4 && s[..4] == "DRV_"
  }

  /** `errorToDescMap` holds only names that begin with `DRV_`. */
  predicate WellFormed(table: ErrorTable) {
    forall c | c in table :: DrvName(table[c])
  }

  const INVALID_PREFIX: string := "Invalid error code "

  /** The description of one key: its `DRV_` name when known, otherwise the fallback text. */
  function Describe(table: ErrorTable, key: Scalar): (s: string)
    ensures key.SInt? && key.i in table ==> s == table[key.i]
    ensures !(key.SInt? && key.i in table) ==> s == INVALID_PREFIX + Str(key)
  {
    if key.SInt? && key.i in table then table[key.i] else INVALID_PREFIX + Str(key)
  }

  /** `convertErrorToDesc`: a list is described by its first element (an empty list raises
      IndexError), anything else by itself. */
  function ConvertErrorToDesc(table: ErrorTable, code: PyValue): (r: Result<string>)
    ensures code.PScalar? ==> r == Ok(Describe(table, code.scalar))
    ensures code.PList? && |code.items| > 0 ==> r == Ok(Describe(table, code.items[0]))
    ensures code.PList? && |code.items| == 0 ==> r == Raise(IndexError)
  {
    match code
    case PScalar(key) => Ok(Describe(table, key))
    case PList(items) => if |items| == 0 then Raise(IndexError) else Ok(Describe(table, items[0]))
  }

  /** With a well-formed table a description is a `DRV_` name exactly when the code is known:
      the fallback text never looks like a name. */
  lemma DescribeKnown(table: ErrorTable, key: Scalar)
    requires WellFormed(table)
    ensures DrvName(Describe(table, key)) <==> key.SInt? && key.i in table
  {
    if !(key.SInt? && key.i in table) {
      var s := Describe(table, key);
      assert s[0] == INVALID_PREFIX[0] == 'I';
      assert s[..4][0] == 'I';
    }
  }

  /** The result translation of `wrappedAndorFunc`: an `int` is a status code, success
      giving None; a list starts with a status code, success giving its second element when
      there are exactly two and otherwise the rest of the list (an empty list raises
      IndexError on its missing status); anything else passes through. */
  function Translate(table: ErrorTable, result: PyValue): (r: Result<PyValue>)
    ensures result.PScalar? && result.scalar.SInt? ==>
      r == if result.scalar.i == AndorSdk.DRV_SUCCESS then Ok(PScalar(SNone))
           else Raise(RuntimeError(Describe(table, result.scalar)))
    ensures result.PScalar? && !result.scalar.SInt? ==> r == Ok(result)
    ensures result.PList? ==>
      (r.Ok? <==> |result.items| > 0 && result.items[0] == SInt(AndorSdk.DRV_SUCCESS))
    ensures result.PList? && |result.items| == 0 ==> r == Raise(IndexError)
    ensures result.PList? && |result.items| > 0 && r.Raise? ==>
      r.error == RuntimeError(Describe(table, result.items[0]))
    ensures result.PList? && r.Ok? ==>
      r.value == if |result.items| == 2 then PScalar(result.items[1]) else PList(result.items[1..])
  {
    match result
    case PScalar(x) =>
      if x.SInt? then
        if x.i != AndorSdk.DRV_SUCCESS then Raise(RuntimeError(Describe(table, x))) else Ok(PScalar(SNone))
      else Ok(result)
    case PList(items) =>
      if |items| == 0 then Raise(IndexError)
      else if items[0] != SInt(AndorSdk.DRV_SUCCESS) then Raise(RuntimeError(Describe(table, items[0])))
      else if |items| == 2 then Ok(PScalar(items[1]))
      else Ok(PList(items[1..]))
  }

  /** A failing status code is reported under the same description convertErrorToDesc gives it. */
  lemma TranslateReportsCode(table: ErrorTable, result: PyValue)
    requires Translate(table, result).Raise? && Translate(table, result).error.RuntimeError?
    ensures ConvertErrorToDesc(table, result) == Ok(Translate(table, result).error.message)
  {
  }

  /** A successful list reply loses only its status: putting the status back rebuilds it. */
  lemma TranslateListRoundTrip(table: ErrorTable, values: seq<Scalar>)
    ensures Translate(table, PList([SInt(AndorSdk.DRV_SUCCESS)] + values)).Ok?
    ensures var v := Translate(table, PList([SInt(AndorSdk.DRV_SUCCESS)] + values)).value;
      (if |values| == 1 then [v.scalar] else v.items) == values
  {
    var items := [SInt(AndorSdk.DRV_SUCCESS)] + values;
    assert items[1..] == values;
  }

  /** The bindings andorIxon.py calls, with their arguments. */
  datatype Fn =
    | GetStatus
    | AbortAcquisition
    | SetAcquisitionMode(mode: int)
    | SetEMCCDGain(gain: int)
    | SetShutter(ttl: int, mode: int, closing: int, opening: int)
    | SetTriggerMode(trigger: int)
    | SetFanMode(fan: int)
    | SetOutputAmplifier(amplifier: int)
    | SetADChannel(channel: int)
    | SetVSSpeed(vsIndex: int)
    | SetHSSpeed(amplifierType: Option<int>, hsIndex: int)
    | SetPreAmpGain(preAmpIndex: int)
    | SetImage(hbin: int, vbin: int, hstart: int, hend: int, vstart: int, vend: int)
    | GetOldestImage16

  /** The binding's name, as the "locked" message shows it. */
  function Name(fn: Fn): string {
    match fn
    case GetStatus => "GetStatus"
    case AbortAcquisition => "AbortAcquisition"
    case SetAcquisitionMode(_) => "SetAcquisitionMode"
    case SetEMCCDGain(_) => "SetEMCCDGain"
    case SetShutter(_, _, _, _) => "SetShutter"
    case SetTriggerMode(_) => "SetTriggerMode"
    case SetFanMode(_) => "SetFanMode"
    case SetOutputAmplifier(_) => "SetOutputAmplifier"
    case SetADChannel(_) => "SetADChannel"
    case SetVSSpeed(_) => "SetVSSpeed"
    case SetHSSpeed(_, _) => "SetHSSpeed"
    case SetPreAmpGain(_) => "SetPreAmpGain"
    case SetImage(_, _, _, _, _, _) => "SetImage"
    case GetOldestImage16 => "GetOldestImage16"
  }

  function LockedError(fn: Fn): PyError {
    RuntimeError("Function " + Name(fn) + " locked")
  }

  /** `andorWrap`. The bindings' behaviour is an oracle from a call to what it returns, `None`
      when it raises. */
  class AndorWrap {
    const answer: Fn -> Option<PyValue>
    const table: ErrorTable
    /** `wrappedAndorFunc.lock`, one lock shared by every wrapped binding. */
    var busy: bool
    /** Every binding called so far, and those wrapped calls that went through. */
    ghost var calls: seq<Fn>
    ghost var accepted: seq<Fn>

    constructor (answer: Fn -> Option<PyValue>, table: ErrorTable)
      ensures this.answer == answer && this.table == table && !busy && calls == [] && accepted == []
    {
      this.answer, this.table := answer, table;
      busy, calls, accepted := false, [], [];
    }

    /** What a wrapped call gives when the lock is free: the binding's exception, or its
        translated result. */
    function Wrapped(fn: Fn): Result<PyValue> {
      match answer(fn)
      case None => Raise(DriverFault)
      case Some(v) => Translate(table, v)
    }

    /** What a wrapped call gives from a lock state, and the calls it makes. */
    function Outcome(wasBusy: bool, fn: Fn): Result<PyValue> {
      if wasBusy then Raise(LockedError(fn)) else Wrapped(fn)
    }

    function Tried(wasBusy: bool, fn: Fn): seq<Fn> {
      if wasBusy then [] else [fn]
    }

    /** The lock stays taken after a binding that raised, since the release is skipped. */
    predicate Wedges(wasBusy: bool, fn: Fn) {
      wasBusy || answer(fn).None?
    }

    /** `wrappedAndorFunc.__call__`. */
    method Call(fn: Fn) returns (r: Result<PyValue>)
      modifies this`busy, this`calls, this`accepted
      ensures r == Outcome(old(busy), fn)
      ensures busy == Wedges(old(busy), fn)
      ensures calls == old(calls) + Tried(old(busy), fn)
      ensures accepted == old(accepted) + if r.Ok? then [fn] else []
    {
      if busy {
        return Raise(LockedError(fn));
      }
      busy := true;
      calls := calls + [fn];
      var result := answer(fn);
      if result.None? {
        return Raise(DriverFault);
      }
      busy := false;
      r := Translate(table, result.value);
      if r.Ok? {
        accepted := accepted + [fn];
      }
    }

    /** A binding andorWrap leaves unwrapped (AbortAcquisition among them): no lock and no
        translation. */
    method Direct(fn: Fn) returns (r: Result<PyValue>)
      modifies this`calls
      ensures r == match answer(fn) case None => Raise(DriverFault) case Some(v) => Ok(v)
      ensures calls == old(calls) + [fn]
    {
      calls := calls + [fn];
      r := match answer(fn) case None => Raise(DriverFault) case Some(v) => Ok(v);
    }
  }

  /** Once a wrapped binding has raised the lock is never released, so every later wrapped
      call raises "locked" without reaching the driver. */
  lemma WedgedForever(lib: AndorWrap, first: Fn, next: Fn)
    requires lib.answer(first).None?
    ensures lib.Wedges(false, first)
    ensures lib.Outcome(lib.Wedges(false, first), next) == Raise(LockedError(next))
    ensures lib.Tried(lib.Wedges(false, first), next) == []
  {
  }
}
