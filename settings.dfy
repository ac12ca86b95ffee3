/** The settings dictionary of andor.py's Camera: the value kinds a client sends,
    Python's casts and truthiness on them, the `SETTERS` table and the choice of
    keys that `update_settings` re-applies. */
module Settings {
  import opened Python
  import opened Driver

  /** A settings value as a client sends it. */
  datatype Value = VNone | VBool(b: bool) | VInt(i: int) | VReal(r: real)

  type SettingMap = map<string, Value>

  /** `settings.get(key)`: None when the key is absent. */
  function Get(s: SettingMap, key: string): Value {
    if key in s then s[key] else VNone
  }

  /** The setting names the camera reads. */
  const EXPOSURE_TIME: string := "exposureTime"
  const EM_GAIN: string := "EMGain"
  const TARGET_TEMPERATURE: string := "targetTemperature"
  const IS_WATER_COOLED: string := "isWaterCooled"

  /** Python truthiness. */
  predicate Truthy(v: Value) {
    match v
    case VNone => false
    case VBool(b) => b
    case VInt(i) => i != 0
    case VReal(r) => r != 0.0
  }

  /** `int(r)` for a float: truncation towards zero. */
  function Trunc(r: real): (i: int)
    ensures r >= 0.0 ==> i as real <= r < i as real + 1.0
    ensures r < 0.0 ==> i as real - 1.0 < r <= i as real
  {
    if r >= 0.0 then r.Floor else -((-r).Floor)
  }

  /** `int(v)`. */
  function IntCast(v: Value): Result<int> {
    match v
    case VNone => Raise(TypeError)
    case VBool(b) => Ok(if b then 1 else 0)
    case VInt(i) => Ok(i)
    case VReal(r) => Ok(Trunc(r))
  }

  /** `float(v)`. */
  function FloatCast(v: Value): Result<real> {
    match v
    case VNone => Raise(TypeError)
    case VBool(b) => Ok(if b then 1.0 else 0.0)
    case VInt(i) => Ok(i as real)
    case VReal(r) => Ok(r)
  }

  /** The driver setter a `SETTERS` entry names, and the cast applied to its argument. */
  datatype Setter = ExposureTimeSetter | EMCCDGainSetter

  /** andor.py's `SETTERS`: 'exposureTime' -> (SetExposureTime, float), 'EMGain' -> (SetEMCCDGain, int). */
  const SETTERS: map<string, Setter> := map[EXPOSURE_TIME := ExposureTimeSetter, EM_GAIN := EMCCDGainSetter]

  /** The driver call update_settings makes for a known key: the setter applied to the cast value. */
  function SetterCall(key: string, v: Value): (r: Result<Fn>)
    requires key in SETTERS
    ensures key == EXPOSURE_TIME ==>
      r == match FloatCast(v) case Ok(x) => Ok(SetExposureTime(x)) case Raise(e) => Raise(e)
    ensures key == EM_GAIN ==>
      r == match IntCast(v) case Ok(g) => Ok(SetEMCCDGain(g)) case Raise(e) => Raise(e)
  {
    match SETTERS[key]
    case ExposureTimeSetter =>
      (match FloatCast(v) case Ok(x) => Ok(SetExposureTime(x)) case Raise(e) => Raise(e))
    case EMCCDGainSetter =>
      (match IntCast(v) case Ok(g) => Ok(SetEMCCDGain(g)) case Raise(e) => Raise(e))
  }

  /** The keys update_settings walks: with `init` those held before the merge, otherwise
      the incoming keys together with those whose value changed. */
  function UpdateKeys(mine: SettingMap, theirs: SettingMap, init: bool): (keys: set<string>)
    ensures init ==> keys == mine.Keys
    ensures !init ==> keys == theirs.Keys
  {
    if init then mine.Keys
    else
      var changed := set k | k in mine.Keys * theirs.Keys && mine[k] != theirs[k];
      theirs.Keys + changed
  }

  /** `dict.update`: the merged map keeps every old key and takes the incoming value on a clash. */
  function Merge(mine: SettingMap, theirs: SettingMap): (merged: SettingMap)
    ensures merged.Keys == mine.Keys + theirs.Keys
    ensures forall k | k in theirs :: merged[k] == theirs[k]
    ensures forall k | k in mine && k !in theirs :: merged[k] == mine[k]
  {
    mine + theirs
  }

  /** The walked keys are all present in the merged dictionary. */
  lemma UpdateKeysInMerge(mine: SettingMap, theirs: SettingMap, init: bool)
    ensures UpdateKeys(mine, theirs, init) <= Merge(mine, theirs).Keys
  {
  }

  /** The driver call update_settings makes for one walked key: none for a key without a
      setter or whose value does not cast, otherwise the setter applied to the cast value. */
  function KeyCall(k: string, merged: SettingMap): seq<Fn> {
    if k in SETTERS && k in merged && SetterCall(k, merged[k]).Ok? then [SetterCall(k, merged[k]).value] else []
  }

  /** The setter calls update_settings makes for a set of walked keys, in no particular order. */
  function SetterCalls(keys: set<string>, merged: SettingMap): multiset<Fn> {
    (if EXPOSURE_TIME in keys then multiset(KeyCall(EXPOSURE_TIME, merged)) else multiset{})
    + (if EM_GAIN in keys then multiset(KeyCall(EM_GAIN, merged)) else multiset{})
  }

  /** One walked key goes through: it has no setter, or its merged value casts and the driver
      accepts the call. */
  predicate KeyOk(k: string, merged: SettingMap, answer: Fn -> Reply) {
    k in SETTERS ==> k in merged && SetterCall(k, merged[k]).Ok? && !answer(SetterCall(k, merged[k]).value).Raised?
  }

  predicate SettersSucceed(keys: set<string>, merged: SettingMap, answer: Fn -> Reply) {
    forall k | k in keys :: KeyOk(k, merged, answer)
  }

  /** Only keys that appear in `SETTERS` lead to a driver call; the others are skipped. */
  lemma UnknownKeysSkipped(keys: set<string>, merged: SettingMap)
    ensures SetterCalls(keys, merged) == SetterCalls(keys * SETTERS.Keys, merged)
  {
  }

  /** A call is among the setter calls exactly when some walked key with a setter produced it
      from its merged value, and no call is made twice. */
  lemma SetterCallsMembers(keys: set<string>, merged: SettingMap, f: Fn)
    ensures f in SetterCalls(keys, merged) <==>
      exists k :: k in keys && k in SETTERS && k in merged && SetterCall(k, merged[k]) == Ok(f)
    ensures SetterCalls(keys, merged)[f] <= 1
  {
    KeyCallMember(EXPOSURE_TIME, merged, f);
    KeyCallMember(EM_GAIN, merged, f);
    KeyCallKinds(merged, f);
    if exists k :: k in keys && k in SETTERS && k in merged && SetterCall(k, merged[k]) == Ok(f) {
      var k :| k in keys && k in SETTERS && k in merged && SetterCall(k, merged[k]) == Ok(f);
      KeyCallMember(k, merged, f);
      SettersKeys(k);
    }
  }

  /** The keys of `SETTERS`. */
  lemma SettersKeys(k: string)
    ensures k in SETTERS <==> k == EXPOSURE_TIME || k == EM_GAIN
  {
  }

  /** What one key contributes: at most one call, the setter applied to the cast value. */
  lemma KeyCallMember(k: string, merged: SettingMap, f: Fn)
    ensures |KeyCall(k, merged)| <= 1 && multiset(KeyCall(k, merged))[f] <= 1
    ensures f in KeyCall(k, merged) <==> k in SETTERS && k in merged && SetterCall(k, merged[k]) == Ok(f)
  {
  }

  /** The two setters make calls of different bindings. */
  lemma KeyCallKinds(merged: SettingMap, f: Fn)
    ensures f in KeyCall(EXPOSURE_TIME, merged) ==> f.SetExposureTime?
    ensures f in KeyCall(EM_GAIN, merged) ==> f.SetEMCCDGain?
  {
  }

  /** Walking one more key adds that key's call, if any, to the calls already made. */
  lemma SetterCallsStep(done: set<string>, k: string, merged: SettingMap)
    requires k !in done
    ensures SetterCalls(done + {k}, merged) == SetterCalls(done, merged) + multiset(KeyCall(k, merged))
  {
    if k != EXPOSURE_TIME && k != EM_GAIN {
      assert KeyCall(k, merged) == [];
    }
  }

  /** Walking more keys makes no fewer calls. */
  lemma SetterCallsGrow(done: set<string>, keys: set<string>, merged: SettingMap)
    requires done <= keys
    ensures SetterCalls(done, merged) <= SetterCalls(keys, merged)
  {
  }

  /** The loop of update_settings, one key further: the calls made so far and the keys that
      went through both grow by that key. */
  predicate Walked(applied: seq<Fn>, done: set<string>, merged: SettingMap, answer: Fn -> Reply) {
    multiset(applied) == SetterCalls(done, merged) && SettersSucceed(done, merged, answer)
  }

  lemma WalkStep(applied: seq<Fn>, done: set<string>, k: string, merged: SettingMap, answer: Fn -> Reply)
    requires k !in done && Walked(applied, done, merged, answer) && KeyOk(k, merged, answer)
    ensures Walked(applied + KeyCall(k, merged), done + {k}, merged, answer)
  {
    SetterCallsStep(done, k, merged);
  }

  /** Incremental updates re-apply a value even when it is unchanged. */
  lemma UnchangedValueReapplied(mine: SettingMap, theirs: SettingMap, k: string)
    requires k in mine && k in theirs && mine[k] == theirs[k]
    ensures k in UpdateKeys(mine, theirs, false)
  {
  }

  /** An initialising update never walks a key the camera did not hold before the merge. */
  lemma InitSkipsNewKeys(mine: SettingMap, theirs: SettingMap, k: string)
    requires k in theirs && k !in mine
    ensures k !in UpdateKeys(mine, theirs, true)
  {
  }

  /** The keys update_settings's comments say it walks: with `init` everything the camera
      will hold ("set everything"), otherwise only the incoming keys that are new or whose
      value changed. */
  function IntendedUpdateKeys(mine: SettingMap, theirs: SettingMap, init: bool): set<string> {
    if init then Merge(mine, theirs).Keys
    else set k | k in theirs.Keys && (k !in mine || mine[k] != theirs[k])
  }

  /** The intended choice walks exactly the keys its comments name; it walks every key the
      initialising update as written walks, and no more incoming keys than the incremental one. */
  lemma IntendedUpdateKeysExact(mine: SettingMap, theirs: SettingMap, k: string)
    ensures k in IntendedUpdateKeys(mine, theirs, true) <==> k in mine || k in theirs
    ensures k in IntendedUpdateKeys(mine, theirs, false) <==> k in theirs && (k !in mine || mine[k] != theirs[k])
    ensures UpdateKeys(mine, theirs, true) <= IntendedUpdateKeys(mine, theirs, true)
    ensures IntendedUpdateKeys(mine, theirs, false) <= UpdateKeys(mine, theirs, false)
  {
  }

  /** The target temperature a client asks for, if any. */
  function TargetTemperature(s: SettingMap): Value {
    Get(s, TARGET_TEMPERATURE)
  }

  /** The fan mode enable chooses: 1 (low) for a water-cooled camera, otherwise 0 (full). */
  function FanModeFor(s: SettingMap): (mode: int)
    ensures mode == 1 <==> Truthy(Get(s, IS_WATER_COOLED))
    ensures mode == 0 || mode == 1
  {
    if Truthy(Get(s, IS_WATER_COOLED)) then 1 else 0
  }

  /** `max(t_min, min(t_max, t))`: the set point limited to the camera's range. */
  function Clamp(tMin: int, tMax: int, t: int): (r: int)
    ensures tMin <= tMax ==> tMin <= r <= tMax
    ensures tMin <= t <= tMax ==> r == t
    ensures t < tMin ==> r == tMin
    ensures tMin <= tMax < t ==> r == tMax
  {
    var upper := if t < tMax then t else tMax;
    if tMin < upper then upper else tMin
  }
}
