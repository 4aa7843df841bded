/**
 * The flattened snapshot `data()` returns (aioairzone_cloud/device.py:128-216,
 * aioairzone_cloud/air_quality.py:90-151), defined key by key: which keys it
 * holds and what each one carries. The entities build it by successive
 * insertions and prove that they arrive at this map.
 */
module Snapshot {
  import opened Wrappers
  import opened Json
  import opened Common
  import opened Const
  import opened DeviceSpec
  import opened AirQualitySpec

  /** A value of the snapshot. */
  datatype Value =
    | VBool(b: bool)
    | VInt(i: int)
    | VReal(r: real)
    | VStr(s: string)
    | VMode(m: OperationMode)
    | VModes(ms: seq<OperationMode>)
    | VList(items: seq<JsonValue>)
    | VRaw(raw: JsonValue)

  type Output = map<OutputKey, Value>

  /** The identifiers a device is constructed with. */
  datatype Identity = Identity(id: string, installation: string, webserver: string)

  /** The readings only an `AirQuality` reports through its `get_aq_*` accessors. */
  datatype AqReadings = AqReadings(ventActive: Option<bool>, pressure: Option<JsonValue>)

  function BoolEntry(v: Option<bool>): Option<Value>
  {
    if v.Some? then Some(VBool(v.value)) else None
  }

  function IntEntry(v: Option<int>): Option<Value>
  {
    if v.Some? then Some(VInt(v.value)) else None
  }

  function StrEntry(v: Option<string>): Option<Value>
  {
    if v.Some? then Some(VStr(v.value)) else None
  }

  function ModeEntry(v: Option<OperationMode>): Option<Value>
  {
    if v.Some? then Some(VMode(v.value)) else None
  }

  function RealEntry(v: Option<real>): Option<Value>
  {
    if v.Some? then Some(VReal(v.value)) else None
  }

  function ModesEntry(v: Option<seq<OperationMode>>): Option<Value>
  {
    if v.Some? then Some(VModes(v.value)) else None
  }

  function RawEntry(v: Option<JsonValue>): Option<Value>
  {
    if v.Some? then Some(VRaw(v.value)) else None
  }

  /** A list is reported only when it is not empty. */
  function ListEntry(items: seq<JsonValue>): Option<Value>
  {
    if |items| > 0 then Some(VList(items)) else None
  }

  /** The quality level is reported through the level table; an unknown level is not reported. */
  function QualityEntry(quality: Option<string>, levels: map<string, string>): Option<Value>
  {
    if quality.Some? && quality.value in levels then Some(VStr(levels[quality.value])) else None
  }

  /** What `Device.data` stores under `k`, if anything. */
  function DeviceEntry(k: OutputKey, s: DeviceState, rd: Readings, ids: Identity, levels: map<string, string>): (r: Option<Value>)
    ensures r.Some? ==> k.OfDevice()
  {
    match k
    case AzdAvailable => Some(VBool(s.isConnected && s.wsConnected))
    case AzdDoubleSetPoint => Some(VBool(s.doubleSetPoint == Some(true)))
    case AzdId => Some(VStr(ids.id))
    case AzdInstallation => Some(VStr(ids.installation))
    case AzdIsConnected => Some(VBool(s.isConnected))
    case AzdName => Some(VStr(s.name))
    case AzdProblems => Some(VBool(s.errors != [] || s.warnings != []))
    case AzdWebserver => Some(VStr(ids.webserver))
    case AzdWsConnected => Some(VBool(s.wsConnected))
    case AzdAqActive => BoolEntry(rd.active)
    case AzdAqQuality => QualityEntry(rd.quality, levels)
    case AzdAqScore => StrEntry(rd.score)
    case AzdAqPm1 => IntEntry(rd.pm1)
    case AzdAqPm2p5 => IntEntry(rd.pm2p5)
    case AzdAqPm10 => IntEntry(rd.pm10)
    case AzdAqCo2 => IntEntry(rd.co2)
    case AzdAqTvoc => IntEntry(rd.tvoc)
    case AzdAqHumidity => IntEntry(rd.humidity)
    case AzdAqTemp => RealEntry(rd.temp)
    case AzdAqPresent => BoolEntry(rd.present)
    case AzdDualSpConf => BoolEntry(s.dualSpConf)
    case AzdErrors => ListEntry(s.errors)
    case AzdMode => ModeEntry(s.mode)
    case AzdModeAuto => ModeEntry(s.autoMode)
    case AzdModes => ModesEntry(if |s.modes| > 0 then Some(s.modes) else None)
    case AzdSimulatorMode => BoolEntry(s.simulatorMode)
    case AzdWarnings => ListEntry(s.warnings)
    case _ => None
  }

  // The entries of the keys, a few at a time: each group is a small proof obligation.

  /** The connection keys always have an entry. */
  lemma FixedEntriesConnection(s: DeviceState, rd: Readings, ids: Identity, levels: map<string, string>)
    ensures DeviceEntry(AzdAvailable, s, rd, ids, levels) == Some(VBool(s.isConnected && s.wsConnected))
    ensures DeviceEntry(AzdIsConnected, s, rd, ids, levels) == Some(VBool(s.isConnected))
    ensures DeviceEntry(AzdWsConnected, s, rd, ids, levels) == Some(VBool(s.wsConnected))
  {
  }

  /** The identifier keys always have an entry. */
  lemma FixedEntriesIdentity(s: DeviceState, rd: Readings, ids: Identity, levels: map<string, string>)
    ensures DeviceEntry(AzdId, s, rd, ids, levels) == Some(VStr(ids.id))
    ensures DeviceEntry(AzdInstallation, s, rd, ids, levels) == Some(VStr(ids.installation))
    ensures DeviceEntry(AzdWebserver, s, rd, ids, levels) == Some(VStr(ids.webserver))
  {
  }

  /** The derived keys and the name always have an entry. */
  lemma FixedEntriesDerived(s: DeviceState, rd: Readings, ids: Identity, levels: map<string, string>)
    ensures DeviceEntry(AzdDoubleSetPoint, s, rd, ids, levels) == Some(VBool(s.doubleSetPoint == Some(true)))
    ensures DeviceEntry(AzdName, s, rd, ids, levels) == Some(VStr(s.name))
    ensures DeviceEntry(AzdProblems, s, rd, ids, levels) == Some(VBool(s.errors != [] || s.warnings != []))
  {
  }

  /** The entries of the flag and temperature readings. */
  lemma ReadingEntriesFlags(s: DeviceState, rd: Readings, ids: Identity, levels: map<string, string>)
    ensures DeviceEntry(AzdAqActive, s, rd, ids, levels) == BoolEntry(rd.active)
    ensures DeviceEntry(AzdAqTemp, s, rd, ids, levels) == RealEntry(rd.temp)
    ensures DeviceEntry(AzdAqPresent, s, rd, ids, levels) == BoolEntry(rd.present)
  {
  }

  /** The entries of the quality, score and humidity readings. */
  lemma ReadingEntriesIndices(s: DeviceState, rd: Readings, ids: Identity, levels: map<string, string>)
    ensures DeviceEntry(AzdAqQuality, s, rd, ids, levels) == QualityEntry(rd.quality, levels)
    ensures DeviceEntry(AzdAqScore, s, rd, ids, levels) == StrEntry(rd.score)
    ensures DeviceEntry(AzdAqHumidity, s, rd, ids, levels) == IntEntry(rd.humidity)
  {
  }

  /** The entries of the particle readings. */
  lemma ReadingEntriesParticles(s: DeviceState, rd: Readings, ids: Identity, levels: map<string, string>)
    ensures DeviceEntry(AzdAqPm1, s, rd, ids, levels) == IntEntry(rd.pm1)
    ensures DeviceEntry(AzdAqPm2p5, s, rd, ids, levels) == IntEntry(rd.pm2p5)
    ensures DeviceEntry(AzdAqPm10, s, rd, ids, levels) == IntEntry(rd.pm10)
  {
  }

  /** The entries of the gas readings. */
  lemma ReadingEntriesGases(s: DeviceState, rd: Readings, ids: Identity, levels: map<string, string>)
    ensures DeviceEntry(AzdAqCo2, s, rd, ids, levels) == IntEntry(rd.co2)
    ensures DeviceEntry(AzdAqTvoc, s, rd, ids, levels) == IntEntry(rd.tvoc)
  {
  }

  /** The entries of the modes. */
  lemma SettingEntriesModes(s: DeviceState, rd: Readings, ids: Identity, levels: map<string, string>)
    ensures DeviceEntry(AzdMode, s, rd, ids, levels) == ModeEntry(s.mode)
    ensures DeviceEntry(AzdModeAuto, s, rd, ids, levels) == ModeEntry(s.autoMode)
    ensures DeviceEntry(AzdModes, s, rd, ids, levels) == ModesEntry(if |s.modes| > 0 then Some(s.modes) else None)
  {
  }

  /** The entries of the setting flags. */
  lemma SettingEntriesFlags(s: DeviceState, rd: Readings, ids: Identity, levels: map<string, string>)
    ensures DeviceEntry(AzdDualSpConf, s, rd, ids, levels) == BoolEntry(s.dualSpConf)
    ensures DeviceEntry(AzdSimulatorMode, s, rd, ids, levels) == BoolEntry(s.simulatorMode)
  {
  }

  /** The entries of the lists. */
  lemma SettingEntriesLists(s: DeviceState, rd: Readings, ids: Identity, levels: map<string, string>)
    ensures DeviceEntry(AzdErrors, s, rd, ids, levels) == ListEntry(s.errors)
    ensures DeviceEntry(AzdWarnings, s, rd, ids, levels) == ListEntry(s.warnings)
  {
  }

  /** `if x is not None: data[K] = x`, with the entry already converted. */
  function Put(d: Output, k: OutputKey, e: Option<Value>): Output
  {
    if e.Some? then d[k := e.value] else d
  }

  /** A run of insertions: each key with the entry it may store, in program order. */
  datatype Inserts = End | Then(key: OutputKey, entry: Option<Value>, rest: Inserts)
  {
    /** The entry the run leaves under `k`: its last insertion there that stores something. */
    function Lookup(k: OutputKey): Option<Value>
    {
      match this
      case End => None
      case Then(j, e, rest) =>
        if rest.Lookup(k).Some? then rest.Lookup(k) else if j == k then e else None
    }
  }

  /** Performs the run on `d`. */
  function Build(d: Output, ks: Inserts): Output
    decreases ks
  {
    match ks
    case End => d
    case Then(k, e, rest) => Build(Put(d, k, e), rest)
  }

  /** After the run a key holds what the run left there, or else what it held before. */
  lemma {:induction false} BuildAt(d: Output, ks: Inserts, k: OutputKey)
    ensures var r := Build(d, ks);
      && (k in r <==> ks.Lookup(k).Some? || k in d)
      && (k in r ==> r[k] == if ks.Lookup(k).Some? then ks.Lookup(k).value else d[k])
    decreases ks
  {
    match ks
    case End =>
    case Then(j, e, rest) => BuildAt(Put(d, j, e), rest, k);
  }

  /** The run that inserts `keys[i..]` in order, each key with the entry `at` gives for it. */
  function Run(keys: seq<OutputKey>, i: nat, at: OutputKey -> Option<Value>): Inserts
    decreases |keys| - i
  {
    if i >= |keys| then End else Then(keys[i], at(keys[i]), Run(keys, i + 1, at))
  }

  /** Every key a run inserts is left with its own entry, however often it is inserted. */
  lemma {:induction false} RunLookup(keys: seq<OutputKey>, i: nat, at: OutputKey -> Option<Value>, k: OutputKey)
    requires i <= |keys|
    ensures Run(keys, i, at).Lookup(k) == if k in keys[i..] then at(k) else None
    decreases |keys| - i
  {
    if i < |keys| {
      RunLookup(keys, i + 1, at, k);
      assert keys[i..] == [keys[i]] + keys[i + 1..];
    }
  }

  /** The nine keys `Device.data` always stores (device.py:130-140). */
  function DeviceFixed(s: DeviceState, ids: Identity): Output
  {
    map[
      AzdAvailable := VBool(s.isConnected && s.wsConnected),
      AzdDoubleSetPoint := VBool(s.doubleSetPoint == Some(true)),
      AzdId := VStr(ids.id),
      AzdInstallation := VStr(ids.installation),
      AzdIsConnected := VBool(s.isConnected),
      AzdName := VStr(s.name),
      AzdProblems := VBool(s.errors != [] || s.warnings != []),
      AzdWebserver := VStr(ids.webserver),
      AzdWsConnected := VBool(s.wsConnected)]
  }

  /** The keys `Device.data` inserts one by one, in the order the code inserts them (device.py:142-214). */
  const DEVICE_KEYS: seq<OutputKey> := [
    AzdAqActive, AzdAqQuality, AzdAqScore, AzdAqPm1, AzdAqPm2p5, AzdAqPm10, AzdAqCo2, AzdAqTvoc, AzdAqHumidity,
    AzdAqTemp, AzdAqPresent, AzdDualSpConf, AzdErrors, AzdMode, AzdModeAuto, AzdModes, AzdSimulatorMode, AzdWarnings]

  /** The insertions of device.py:142-214, each key with the entry `at` gives for it. */
  function DeviceRun(at: OutputKey -> Option<Value>): Inserts
  {
    Run(DEVICE_KEYS, 0, at)
  }

  /** No key is inserted twice: each inserted key is left with its own entry. */
  lemma DeviceRunLookup(at: OutputKey -> Option<Value>, k: OutputKey)
    ensures DeviceRun(at).Lookup(k) == if k in DEVICE_KEYS then at(k) else None
  {
    RunLookup(DEVICE_KEYS, 0, at, k);
  }

  /** The device's entries, key by key. */
  function DeviceEntries(s: DeviceState, rd: Readings, ids: Identity, levels: map<string, string>): OutputKey -> Option<Value>
  {
    k => DeviceEntry(k, s, rd, ids, levels)
  }

  /** The snapshot `Device.data` returns: the fixed part, then the insertions. */
  function DeviceOutput(s: DeviceState, rd: Readings, ids: Identity, levels: map<string, string>): Output
  {
    Build(DeviceFixed(s, ids), DeviceRun(DeviceEntries(s, rd, ids, levels)))
  }

  /** After the fixed part and the insertions, a key holds its inserted entry, if any, or else its fixed one. */
  lemma DeviceRunAt(d: Output, at: OutputKey -> Option<Value>, k: OutputKey)
    ensures var r, e := Build(d, DeviceRun(at)), at(k);
      && (k in r <==> (k in DEVICE_KEYS && e.Some?) || k in d)
      && (k in r ==> r[k] == if k in DEVICE_KEYS && e.Some? then e.value else d[k])
  {
    BuildAt(d, DeviceRun(at), k);
    DeviceRunLookup(at, k);
  }

  /** The keys of the fixed part. */
  const DEVICE_FIXED_KEYS: set<OutputKey> := {
    AzdAvailable, AzdDoubleSetPoint, AzdId, AzdInstallation, AzdIsConnected, AzdName, AzdProblems, AzdWebserver, AzdWsConnected
  }

  /** The fixed part stores exactly its nine keys. */
  lemma DeviceFixedKeys(s: DeviceState, ids: Identity)
    ensures DeviceFixed(s, ids).Keys == DEVICE_FIXED_KEYS
  {
  }

  /** The fixed keys, told apart by their constructors. */
  predicate IsFixedKey(k: OutputKey)
  {
    k.AzdAvailable? || k.AzdDoubleSetPoint? || k.AzdId? || k.AzdInstallation? || k.AzdIsConnected? ||
    k.AzdName? || k.AzdProblems? || k.AzdWebserver? || k.AzdWsConnected?
  }

  lemma FixedKeysNamed(k: OutputKey)
    requires k in DEVICE_FIXED_KEYS
    ensures IsFixedKey(k)
  {
  }

  lemma NamedFixedKeyNotInserted(k: OutputKey)
    requires IsFixedKey(k)
    ensures k !in DEVICE_KEYS
  {
  }

  /** No key is both fixed and inserted. */
  lemma DeviceKeysApart(k: OutputKey)
    requires k in DEVICE_FIXED_KEYS
    ensures k !in DEVICE_KEYS
  {
    FixedKeysNamed(k);
    NamedFixedKeyNotInserted(k);
  }

  /** The fixed part holds exactly the entries of the keys not inserted one by one. */
  lemma DeviceFixedAt(s: DeviceState, rd: Readings, ids: Identity, levels: map<string, string>, k: OutputKey)
    ensures var d, e := DeviceFixed(s, ids), DeviceEntry(k, s, rd, ids, levels);
      && (k in d <==> k !in DEVICE_KEYS && e.Some?)
      && (k in d ==> d[k] == e.value)
  {
    DeviceFixedKeys(s, ids);
    if k in DEVICE_FIXED_KEYS {
      DeviceKeysApart(k);
    }
  }

  /** A key of the device snapshot is there exactly when its entry exists, and carries it. */
  lemma DeviceOutputAt(s: DeviceState, rd: Readings, ids: Identity, levels: map<string, string>, k: OutputKey)
    ensures var d, e := DeviceOutput(s, rd, ids, levels), DeviceEntry(k, s, rd, ids, levels);
      (k in d <==> e.Some?) && (k in d ==> d[k] == e.value)
  {
    DeviceRunAt(DeviceFixed(s, ids), DeviceEntries(s, rd, ids, levels), k);
    DeviceFixedAt(s, rd, ids, levels, k);
  }

  /** Insertions 1 to 6 of the run, one by one. */
  lemma DeviceRunStepsFrom0(d: Output, at: OutputKey -> Option<Value>)
    ensures Build(d, Run(DEVICE_KEYS, 0, at)) ==
      Build(Put(Put(Put(Put(Put(Put(d,
          AzdAqActive, at(AzdAqActive)),
          AzdAqQuality, at(AzdAqQuality)),
          AzdAqScore, at(AzdAqScore)),
          AzdAqPm1, at(AzdAqPm1)),
          AzdAqPm2p5, at(AzdAqPm2p5)),
          AzdAqPm10, at(AzdAqPm10)), Run(DEVICE_KEYS, 6, at))
  {
    var full := Build(d, Run(DEVICE_KEYS, 0, at));
    var r, ks := d, Run(DEVICE_KEYS, 0, at);
    r, ks := Put(r, AzdAqActive, at(AzdAqActive)), ks.rest;
    assert Build(r, ks) == full;
    r, ks := Put(r, AzdAqQuality, at(AzdAqQuality)), ks.rest;
    assert Build(r, ks) == full;
    r, ks := Put(r, AzdAqScore, at(AzdAqScore)), ks.rest;
    assert Build(r, ks) == full;
    r, ks := Put(r, AzdAqPm1, at(AzdAqPm1)), ks.rest;
    assert Build(r, ks) == full;
    r, ks := Put(r, AzdAqPm2p5, at(AzdAqPm2p5)), ks.rest;
    assert Build(r, ks) == full;
    r, ks := Put(r, AzdAqPm10, at(AzdAqPm10)), ks.rest;
    assert Build(r, ks) == full;
  }

  /** Insertions 7 to 12 of the run, one by one. */
  lemma DeviceRunStepsFrom6(d: Output, at: OutputKey -> Option<Value>)
    ensures Build(d, Run(DEVICE_KEYS, 6, at)) ==
      Build(Put(Put(Put(Put(Put(Put(d,
          AzdAqCo2, at(AzdAqCo2)),
          AzdAqTvoc, at(AzdAqTvoc)),
          AzdAqHumidity, at(AzdAqHumidity)),
          AzdAqTemp, at(AzdAqTemp)),
          AzdAqPresent, at(AzdAqPresent)),
          AzdDualSpConf, at(AzdDualSpConf)), Run(DEVICE_KEYS, 12, at))
  {
    var full := Build(d, Run(DEVICE_KEYS, 6, at));
    var r, ks := d, Run(DEVICE_KEYS, 6, at);
    r, ks := Put(r, AzdAqCo2, at(AzdAqCo2)), ks.rest;
    assert Build(r, ks) == full;
    r, ks := Put(r, AzdAqTvoc, at(AzdAqTvoc)), ks.rest;
    assert Build(r, ks) == full;
    r, ks := Put(r, AzdAqHumidity, at(AzdAqHumidity)), ks.rest;
    assert Build(r, ks) == full;
    r, ks := Put(r, AzdAqTemp, at(AzdAqTemp)), ks.rest;
    assert Build(r, ks) == full;
    r, ks := Put(r, AzdAqPresent, at(AzdAqPresent)), ks.rest;
    assert Build(r, ks) == full;
    r, ks := Put(r, AzdDualSpConf, at(AzdDualSpConf)), ks.rest;
    assert Build(r, ks) == full;
  }

  /** Insertions 13 to 18 of the run, one by one. */
  lemma DeviceRunStepsFrom12(d: Output, at: OutputKey -> Option<Value>)
    ensures Build(d, Run(DEVICE_KEYS, 12, at)) ==
      Build(Put(Put(Put(Put(Put(Put(d,
          AzdErrors, at(AzdErrors)),
          AzdMode, at(AzdMode)),
          AzdModeAuto, at(AzdModeAuto)),
          AzdModes, at(AzdModes)),
          AzdSimulatorMode, at(AzdSimulatorMode)),
          AzdWarnings, at(AzdWarnings)), Run(DEVICE_KEYS, 18, at))
  {
    var full := Build(d, Run(DEVICE_KEYS, 12, at));
    var r, ks := d, Run(DEVICE_KEYS, 12, at);
    r, ks := Put(r, AzdErrors, at(AzdErrors)), ks.rest;
    assert Build(r, ks) == full;
    r, ks := Put(r, AzdMode, at(AzdMode)), ks.rest;
    assert Build(r, ks) == full;
    r, ks := Put(r, AzdModeAuto, at(AzdModeAuto)), ks.rest;
    assert Build(r, ks) == full;
    r, ks := Put(r, AzdModes, at(AzdModes)), ks.rest;
    assert Build(r, ks) == full;
    r, ks := Put(r, AzdSimulatorMode, at(AzdSimulatorMode)), ks.rest;
    assert Build(r, ks) == full;
    r, ks := Put(r, AzdWarnings, at(AzdWarnings)), ks.rest;
    assert Build(r, ks) == full;
  }

  /** The run of device.py:142-214, performed insertion by insertion. */
  lemma DeviceRunSteps(d: Output, at: OutputKey -> Option<Value>)
    ensures Build(d, DeviceRun(at)) == Put(Put(Put(Put(Put(Put(Put(Put(Put(Put(Put(Put(Put(Put(Put(Put(Put(Put(d,
      AzdAqActive, at(AzdAqActive)),
      AzdAqQuality, at(AzdAqQuality)),
      AzdAqScore, at(AzdAqScore)),
      AzdAqPm1, at(AzdAqPm1)),
      AzdAqPm2p5, at(AzdAqPm2p5)),
      AzdAqPm10, at(AzdAqPm10)),
      AzdAqCo2, at(AzdAqCo2)),
      AzdAqTvoc, at(AzdAqTvoc)),
      AzdAqHumidity, at(AzdAqHumidity)),
      AzdAqTemp, at(AzdAqTemp)),
      AzdAqPresent, at(AzdAqPresent)),
      AzdDualSpConf, at(AzdDualSpConf)),
      AzdErrors, at(AzdErrors)),
      AzdMode, at(AzdMode)),
      AzdModeAuto, at(AzdModeAuto)),
      AzdModes, at(AzdModes)),
      AzdSimulatorMode, at(AzdSimulatorMode)),
      AzdWarnings, at(AzdWarnings))
  {
    DeviceRunStepsFrom0(d, at);
    var r6 := Put(Put(Put(Put(Put(Put(d, AzdAqActive, at(AzdAqActive)), AzdAqQuality, at(AzdAqQuality)), AzdAqScore, at(AzdAqScore)), AzdAqPm1, at(AzdAqPm1)), AzdAqPm2p5, at(AzdAqPm2p5)), AzdAqPm10, at(AzdAqPm10));
    DeviceRunStepsFrom6(r6, at);
    var r12 := Put(Put(Put(Put(Put(Put(r6, AzdAqCo2, at(AzdAqCo2)), AzdAqTvoc, at(AzdAqTvoc)), AzdAqHumidity, at(AzdAqHumidity)), AzdAqTemp, at(AzdAqTemp)), AzdAqPresent, at(AzdAqPresent)), AzdDualSpConf, at(AzdDualSpConf));
    DeviceRunStepsFrom12(r12, at);
  }

  /** The device's entries of the inserted keys, as its accessors give them. */
  lemma DeviceEntriesInserted(s: DeviceState, rd: Readings, ids: Identity, levels: map<string, string>)
    ensures var at := DeviceEntries(s, rd, ids, levels);
      && at(AzdAqActive) == BoolEntry(rd.active)
      && at(AzdAqQuality) == QualityEntry(rd.quality, levels)
      && at(AzdAqScore) == StrEntry(rd.score)
      && at(AzdAqPm1) == IntEntry(rd.pm1)
      && at(AzdAqPm2p5) == IntEntry(rd.pm2p5)
      && at(AzdAqPm10) == IntEntry(rd.pm10)
      && at(AzdAqCo2) == IntEntry(rd.co2)
      && at(AzdAqTvoc) == IntEntry(rd.tvoc)
      && at(AzdAqHumidity) == IntEntry(rd.humidity)
      && at(AzdAqTemp) == RealEntry(rd.temp)
      && at(AzdAqPresent) == BoolEntry(rd.present)
      && at(AzdDualSpConf) == BoolEntry(s.dualSpConf)
      && at(AzdErrors) == ListEntry(s.errors)
      && at(AzdMode) == ModeEntry(s.mode)
      && at(AzdModeAuto) == ModeEntry(s.autoMode)
      && at(AzdModes) == ModesEntry(if |s.modes| > 0 then Some(s.modes) else None)
      && at(AzdSimulatorMode) == BoolEntry(s.simulatorMode)
      && at(AzdWarnings) == ListEntry(s.warnings)
  {
    ReadingEntriesFlags(s, rd, ids, levels);
    ReadingEntriesIndices(s, rd, ids, levels);
    ReadingEntriesParticles(s, rd, ids, levels);
    ReadingEntriesGases(s, rd, ids, levels);
    SettingEntriesModes(s, rd, ids, levels);
    SettingEntriesFlags(s, rd, ids, levels);
    SettingEntriesLists(s, rd, ids, levels);
  }

  /** `Device.data`'s snapshot as the code builds it, with each accessor's entry. */
  lemma DeviceOutputSteps(s: DeviceState, rd: Readings, ids: Identity, levels: map<string, string>)
    ensures DeviceOutput(s, rd, ids, levels) == Put(Put(Put(Put(Put(Put(Put(Put(Put(Put(Put(Put(Put(Put(Put(Put(Put(Put(DeviceFixed(s, ids),
      AzdAqActive, BoolEntry(rd.active)),
      AzdAqQuality, QualityEntry(rd.quality, levels)),
      AzdAqScore, StrEntry(rd.score)),
      AzdAqPm1, IntEntry(rd.pm1)),
      AzdAqPm2p5, IntEntry(rd.pm2p5)),
      AzdAqPm10, IntEntry(rd.pm10)),
      AzdAqCo2, IntEntry(rd.co2)),
      AzdAqTvoc, IntEntry(rd.tvoc)),
      AzdAqHumidity, IntEntry(rd.humidity)),
      AzdAqTemp, RealEntry(rd.temp)),
      AzdAqPresent, BoolEntry(rd.present)),
      AzdDualSpConf, BoolEntry(s.dualSpConf)),
      AzdErrors, ListEntry(s.errors)),
      AzdMode, ModeEntry(s.mode)),
      AzdModeAuto, ModeEntry(s.autoMode)),
      AzdModes, ModesEntry(if |s.modes| > 0 then Some(s.modes) else None)),
      AzdSimulatorMode, BoolEntry(s.simulatorMode)),
      AzdWarnings, ListEntry(s.warnings))
  {
    DeviceRunSteps(DeviceFixed(s, ids), DeviceEntries(s, rd, ids, levels));
    DeviceEntriesInserted(s, rd, ids, levels);
  }

  /** The nine keys `Device.data` always emits, with the accessors' values. */
  lemma DeviceOutputAlways(s: DeviceState, rd: Readings, ids: Identity, levels: map<string, string>)
    ensures var d := DeviceOutput(s, rd, ids, levels);
      && AzdAvailable in d && d[AzdAvailable] == VBool(s.isConnected && s.wsConnected)
      && AzdDoubleSetPoint in d && d[AzdDoubleSetPoint] == VBool(s.doubleSetPoint == Some(true))
      && AzdId in d && d[AzdId] == VStr(ids.id)
      && AzdInstallation in d && d[AzdInstallation] == VStr(ids.installation)
      && AzdIsConnected in d && d[AzdIsConnected] == VBool(s.isConnected)
      && AzdName in d && d[AzdName] == VStr(s.name)
      && AzdProblems in d && d[AzdProblems] == VBool(|s.errors| + |s.warnings| > 0)
      && AzdWebserver in d && d[AzdWebserver] == VStr(ids.webserver)
      && AzdWsConnected in d && d[AzdWsConnected] == VBool(s.wsConnected)
  {
    FixedEntriesConnection(s, rd, ids, levels);
    FixedEntriesIdentity(s, rd, ids, levels);
    FixedEntriesDerived(s, rd, ids, levels);
    DeviceOutputAt(s, rd, ids, levels, AzdAvailable);
    DeviceOutputAt(s, rd, ids, levels, AzdDoubleSetPoint);
    DeviceOutputAt(s, rd, ids, levels, AzdId);
    DeviceOutputAt(s, rd, ids, levels, AzdInstallation);
    DeviceOutputAt(s, rd, ids, levels, AzdIsConnected);
    DeviceOutputAt(s, rd, ids, levels, AzdName);
    DeviceOutputAt(s, rd, ids, levels, AzdProblems);
    DeviceOutputAt(s, rd, ids, levels, AzdWebserver);
    DeviceOutputAt(s, rd, ids, levels, AzdWsConnected);
  }

  /** Each reading key is there exactly when its accessor has a value, and carries that value. */
  lemma DeviceOutputReadings(s: DeviceState, rd: Readings, ids: Identity, levels: map<string, string>)
    ensures var d := DeviceOutput(s, rd, ids, levels);
      && (AzdAqActive in d <==> rd.active.Some?)
      && (AzdAqScore in d <==> rd.score.Some?)
      && (AzdAqPm1 in d <==> rd.pm1.Some?)
      && (AzdAqPm2p5 in d <==> rd.pm2p5.Some?)
      && (AzdAqPm10 in d <==> rd.pm10.Some?)
      && (AzdAqCo2 in d <==> rd.co2.Some?)
      && (AzdAqTvoc in d <==> rd.tvoc.Some?)
      && (AzdAqHumidity in d <==> rd.humidity.Some?)
      && (AzdAqTemp in d <==> rd.temp.Some?)
      && (AzdAqPresent in d <==> rd.present.Some?)
      && (AzdAqActive in d ==> d[AzdAqActive] == VBool(rd.active.value))
      && (AzdAqScore in d ==> d[AzdAqScore] == VStr(rd.score.value))
      && (AzdAqPm1 in d ==> d[AzdAqPm1] == VInt(rd.pm1.value))
      && (AzdAqPm2p5 in d ==> d[AzdAqPm2p5] == VInt(rd.pm2p5.value))
      && (AzdAqPm10 in d ==> d[AzdAqPm10] == VInt(rd.pm10.value))
      && (AzdAqCo2 in d ==> d[AzdAqCo2] == VInt(rd.co2.value))
      && (AzdAqTvoc in d ==> d[AzdAqTvoc] == VInt(rd.tvoc.value))
      && (AzdAqHumidity in d ==> d[AzdAqHumidity] == VInt(rd.humidity.value))
      && (AzdAqTemp in d ==> d[AzdAqTemp] == VReal(rd.temp.value))
      && (AzdAqPresent in d ==> d[AzdAqPresent] == VBool(rd.present.value))
  {
    ReadingEntriesFlags(s, rd, ids, levels);
    ReadingEntriesIndices(s, rd, ids, levels);
    ReadingEntriesParticles(s, rd, ids, levels);
    ReadingEntriesGases(s, rd, ids, levels);
    DeviceOutputAt(s, rd, ids, levels, AzdAqActive);
    DeviceOutputAt(s, rd, ids, levels, AzdAqScore);
    DeviceOutputAt(s, rd, ids, levels, AzdAqPm1);
    DeviceOutputAt(s, rd, ids, levels, AzdAqPm2p5);
    DeviceOutputAt(s, rd, ids, levels, AzdAqPm10);
    DeviceOutputAt(s, rd, ids, levels, AzdAqCo2);
    DeviceOutputAt(s, rd, ids, levels, AzdAqTvoc);
    DeviceOutputAt(s, rd, ids, levels, AzdAqHumidity);
    DeviceOutputAt(s, rd, ids, levels, AzdAqTemp);
    DeviceOutputAt(s, rd, ids, levels, AzdAqPresent);
  }

  /**
   * Each setting key is there exactly when its accessor has a value; the three
   * lists (errors, warnings, available modes) only when they are not empty.
   */
  lemma DeviceOutputSettings(s: DeviceState, rd: Readings, ids: Identity, levels: map<string, string>)
    ensures var d := DeviceOutput(s, rd, ids, levels);
      && (AzdDualSpConf in d <==> s.dualSpConf.Some?)
      && (AzdMode in d <==> s.mode.Some?)
      && (AzdModeAuto in d <==> s.autoMode.Some?)
      && (AzdSimulatorMode in d <==> s.simulatorMode.Some?)
      && (AzdMode in d ==> d[AzdMode] == VMode(s.mode.value))
      && (AzdErrors in d <==> |s.errors| > 0)
      && (AzdWarnings in d <==> |s.warnings| > 0)
      && (AzdModes in d <==> |s.modes| > 0)
      && (AzdErrors in d ==> d[AzdErrors] == VList(s.errors))
      && (AzdWarnings in d ==> d[AzdWarnings] == VList(s.warnings))
      && (AzdModes in d ==> d[AzdModes] == VModes(s.modes))
  {
    SettingEntriesModes(s, rd, ids, levels);
    SettingEntriesFlags(s, rd, ids, levels);
    SettingEntriesLists(s, rd, ids, levels);
    DeviceOutputAt(s, rd, ids, levels, AzdDualSpConf);
    DeviceOutputAt(s, rd, ids, levels, AzdMode);
    DeviceOutputAt(s, rd, ids, levels, AzdModeAuto);
    DeviceOutputAt(s, rd, ids, levels, AzdSimulatorMode);
    DeviceOutputAt(s, rd, ids, levels, AzdErrors);
    DeviceOutputAt(s, rd, ids, levels, AzdWarnings);
    DeviceOutputAt(s, rd, ids, levels, AzdModes);
  }

  /** The quality level only when the table knows it, translated through the table. */
  lemma DeviceOutputQuality(s: DeviceState, rd: Readings, ids: Identity, levels: map<string, string>)
    ensures var d := DeviceOutput(s, rd, ids, levels);
      && (AzdAqQuality in d <==> rd.quality.Some? && rd.quality.value in levels)
      && (AzdAqQuality in d ==> d[AzdAqQuality] == VStr(levels[rd.quality.value]))
  {
    ReadingEntriesIndices(s, rd, ids, levels);
    DeviceOutputAt(s, rd, ids, levels, AzdAqQuality);
  }

  /** A plain device emits none of the keys only an air-quality device has. */
  lemma DeviceOutputKeys(s: DeviceState, rd: Readings, ids: Identity, levels: map<string, string>)
    ensures forall k :: k in DeviceOutput(s, rd, ids, levels) ==> k.OfDevice()
  {
    forall k | k in DeviceOutput(s, rd, ids, levels)
      ensures k.OfDevice()
    {
      DeviceOutputAt(s, rd, ids, levels, k);
    }
  }

  /** What `AirQuality.data` stores under `k`, if anything. */
  function AirQualityEntry(k: OutputKey, s: DeviceState, rd: Readings, ids: Identity, aq: AqReadings,
                           firmware: Option<string>, system: int, zone: int, levels: map<string, string>): Option<Value>
  {
    match k
    case AzdAqVentActive => BoolEntry(aq.ventActive)
    case AzdAqPressure => RawEntry(aq.pressure)
    case AzdSystem => Some(VInt(system))
    case AzdZone => Some(VInt(zone))
    case AzdFirmware => StrEntry(firmware)
    case _ => DeviceEntry(k, s, rd, ids, levels)
  }

  /** The entries of the readings only an air-quality device has, and of its firmware. */
  lemma AirQualityExtraEntries(s: DeviceState, rd: Readings, ids: Identity, aq: AqReadings,
      firmware: Option<string>, system: int, zone: int, levels: map<string, string>)
    ensures AirQualityEntry(AzdAqVentActive, s, rd, ids, aq, firmware, system, zone, levels) == BoolEntry(aq.ventActive)
    ensures AirQualityEntry(AzdAqPressure, s, rd, ids, aq, firmware, system, zone, levels) == RawEntry(aq.pressure)
    ensures AirQualityEntry(AzdFirmware, s, rd, ids, aq, firmware, system, zone, levels) == StrEntry(firmware)
  {
  }

  /** The system and zone keys always have an entry. */
  lemma AirQualityNumberEntries(s: DeviceState, rd: Readings, ids: Identity, aq: AqReadings,
      firmware: Option<string>, system: int, zone: int, levels: map<string, string>)
    ensures AirQualityEntry(AzdSystem, s, rd, ids, aq, firmware, system, zone, levels) == Some(VInt(system))
    ensures AirQualityEntry(AzdZone, s, rd, ids, aq, firmware, system, zone, levels) == Some(VInt(zone))
  {
  }

  /** The keys `AirQuality.data` inserts on top of the device snapshot, in the code's order (air_quality.py:94-149). */
  const AIR_QUALITY_KEYS: seq<OutputKey> := [
    AzdAqVentActive, AzdAqQuality, AzdAqScore, AzdAqPm1, AzdAqPm2p5, AzdAqPm10, AzdAqCo2, AzdAqTvoc, AzdAqHumidity,
    AzdAqTemp, AzdAqPressure, AzdAqPresent, AzdSystem, AzdZone, AzdFirmware]

  /** The insertions of air_quality.py:94-149, each key with the entry `at` gives for it. */
  function AirQualityRun(at: OutputKey -> Option<Value>): Inserts
  {
    Run(AIR_QUALITY_KEYS, 0, at)
  }

  /** No key is inserted twice: each inserted key is left with its own entry. */
  lemma AirQualityRunLookup(at: OutputKey -> Option<Value>, k: OutputKey)
    ensures AirQualityRun(at).Lookup(k) == if k in AIR_QUALITY_KEYS then at(k) else None
  {
    RunLookup(AIR_QUALITY_KEYS, 0, at, k);
  }

  /** After the insertions a key holds its inserted entry, if any, or else what it held before. */
  lemma AirQualityRunAt(d: Output, at: OutputKey -> Option<Value>, k: OutputKey)
    ensures var r, e := Build(d, AirQualityRun(at)), at(k);
      && (k in r <==> (k in AIR_QUALITY_KEYS && e.Some?) || k in d)
      && (k in r ==> r[k] == if k in AIR_QUALITY_KEYS && e.Some? then e.value else d[k])
  {
    BuildAt(d, AirQualityRun(at), k);
    AirQualityRunLookup(at, k);
  }

  /** The air-quality device's entries, key by key. */
  function AirQualityEntries(s: DeviceState, rd: Readings, ids: Identity, aq: AqReadings,
      firmware: Option<string>, system: int, zone: int, levels: map<string, string>): OutputKey -> Option<Value>
  {
    k => AirQualityEntry(k, s, rd, ids, aq, firmware, system, zone, levels)
  }

  /** The snapshot `AirQuality.data` returns: the device snapshot, then the insertions. */
  function AirQualityOutput(s: DeviceState, rd: Readings, ids: Identity, aq: AqReadings,
      firmware: Option<string>, system: int, zone: int, levels: map<string, string>): Output
  {
    Build(DeviceOutput(s, rd, ids, levels), AirQualityRun(AirQualityEntries(s, rd, ids, aq, firmware, system, zone, levels)))
  }

  /** An air-quality device reports what a device reports, and inserts every key only it has. */
  lemma AirQualityEntryOf(s: DeviceState, rd: Readings, ids: Identity, aq: AqReadings,
      firmware: Option<string>, system: int, zone: int, levels: map<string, string>, k: OutputKey)
    ensures k.OfDevice() ==> AirQualityEntry(k, s, rd, ids, aq, firmware, system, zone, levels) == DeviceEntry(k, s, rd, ids, levels)
    ensures !k.OfDevice() ==> k in AIR_QUALITY_KEYS && DeviceEntry(k, s, rd, ids, levels).None?
  {
  }

  /** A key of the air-quality snapshot is there exactly when its entry exists, and carries it. */
  lemma AirQualityOutputAt(s: DeviceState, rd: Readings, ids: Identity, aq: AqReadings,
      firmware: Option<string>, system: int, zone: int, levels: map<string, string>, k: OutputKey)
    ensures var d, e := AirQualityOutput(s, rd, ids, aq, firmware, system, zone, levels), AirQualityEntry(k, s, rd, ids, aq, firmware, system, zone, levels);
      (k in d <==> e.Some?) && (k in d ==> d[k] == e.value)
  {
    AirQualityRunAt(DeviceOutput(s, rd, ids, levels), AirQualityEntries(s, rd, ids, aq, firmware, system, zone, levels), k);
    DeviceOutputAt(s, rd, ids, levels, k);
    AirQualityEntryOf(s, rd, ids, aq, firmware, system, zone, levels, k);
  }

  /** Insertions 1 to 5 of the run, one by one. */
  lemma AirQualityRunStepsFrom0(d: Output, at: OutputKey -> Option<Value>)
    ensures Build(d, Run(AIR_QUALITY_KEYS, 0, at)) ==
      Build(Put(Put(Put(Put(Put(d,
          AzdAqVentActive, at(AzdAqVentActive)),
          AzdAqQuality, at(AzdAqQuality)),
          AzdAqScore, at(AzdAqScore)),
          AzdAqPm1, at(AzdAqPm1)),
          AzdAqPm2p5, at(AzdAqPm2p5)), Run(AIR_QUALITY_KEYS, 5, at))
  {
    var full := Build(d, Run(AIR_QUALITY_KEYS, 0, at));
    var r, ks := d, Run(AIR_QUALITY_KEYS, 0, at);
    r, ks := Put(r, AzdAqVentActive, at(AzdAqVentActive)), ks.rest;
    assert Build(r, ks) == full;
    r, ks := Put(r, AzdAqQuality, at(AzdAqQuality)), ks.rest;
    assert Build(r, ks) == full;
    r, ks := Put(r, AzdAqScore, at(AzdAqScore)), ks.rest;
    assert Build(r, ks) == full;
    r, ks := Put(r, AzdAqPm1, at(AzdAqPm1)), ks.rest;
    assert Build(r, ks) == full;
    r, ks := Put(r, AzdAqPm2p5, at(AzdAqPm2p5)), ks.rest;
    assert Build(r, ks) == full;
  }

  /** Insertions 6 to 10 of the run, one by one. */
  lemma AirQualityRunStepsFrom5(d: Output, at: OutputKey -> Option<Value>)
    ensures Build(d, Run(AIR_QUALITY_KEYS, 5, at)) ==
      Build(Put(Put(Put(Put(Put(d,
          AzdAqPm10, at(AzdAqPm10)),
          AzdAqCo2, at(AzdAqCo2)),
          AzdAqTvoc, at(AzdAqTvoc)),
          AzdAqHumidity, at(AzdAqHumidity)),
          AzdAqTemp, at(AzdAqTemp)), Run(AIR_QUALITY_KEYS, 10, at))
  {
    var full := Build(d, Run(AIR_QUALITY_KEYS, 5, at));
    var r, ks := d, Run(AIR_QUALITY_KEYS, 5, at);
    r, ks := Put(r, AzdAqPm10, at(AzdAqPm10)), ks.rest;
    assert Build(r, ks) == full;
    r, ks := Put(r, AzdAqCo2, at(AzdAqCo2)), ks.rest;
    assert Build(r, ks) == full;
    r, ks := Put(r, AzdAqTvoc, at(AzdAqTvoc)), ks.rest;
    assert Build(r, ks) == full;
    r, ks := Put(r, AzdAqHumidity, at(AzdAqHumidity)), ks.rest;
    assert Build(r, ks) == full;
    r, ks := Put(r, AzdAqTemp, at(AzdAqTemp)), ks.rest;
    assert Build(r, ks) == full;
  }

  /** Insertions 11 to 15 of the run, one by one. */
  lemma AirQualityRunStepsFrom10(d: Output, at: OutputKey -> Option<Value>)
    ensures Build(d, Run(AIR_QUALITY_KEYS, 10, at)) ==
      Build(Put(Put(Put(Put(Put(d,
          AzdAqPressure, at(AzdAqPressure)),
          AzdAqPresent, at(AzdAqPresent)),
          AzdSystem, at(AzdSystem)),
          AzdZone, at(AzdZone)),
          AzdFirmware, at(AzdFirmware)), Run(AIR_QUALITY_KEYS, 15, at))
  {
    var full := Build(d, Run(AIR_QUALITY_KEYS, 10, at));
    var r, ks := d, Run(AIR_QUALITY_KEYS, 10, at);
    r, ks := Put(r, AzdAqPressure, at(AzdAqPressure)), ks.rest;
    assert Build(r, ks) == full;
    r, ks := Put(r, AzdAqPresent, at(AzdAqPresent)), ks.rest;
    assert Build(r, ks) == full;
    r, ks := Put(r, AzdSystem, at(AzdSystem)), ks.rest;
    assert Build(r, ks) == full;
    r, ks := Put(r, AzdZone, at(AzdZone)), ks.rest;
    assert Build(r, ks) == full;
    r, ks := Put(r, AzdFirmware, at(AzdFirmware)), ks.rest;
    assert Build(r, ks) == full;
  }

  /** The run of air_quality.py:94-149, performed insertion by insertion. */
  lemma AirQualityRunSteps(d: Output, at: OutputKey -> Option<Value>)
    ensures Build(d, AirQualityRun(at)) == Put(Put(Put(Put(Put(Put(Put(Put(Put(Put(Put(Put(Put(Put(Put(d,
      AzdAqVentActive, at(AzdAqVentActive)),
      AzdAqQuality, at(AzdAqQuality)),
      AzdAqScore, at(AzdAqScore)),
      AzdAqPm1, at(AzdAqPm1)),
      AzdAqPm2p5, at(AzdAqPm2p5)),
      AzdAqPm10, at(AzdAqPm10)),
      AzdAqCo2, at(AzdAqCo2)),
      AzdAqTvoc, at(AzdAqTvoc)),
      AzdAqHumidity, at(AzdAqHumidity)),
      AzdAqTemp, at(AzdAqTemp)),
      AzdAqPressure, at(AzdAqPressure)),
      AzdAqPresent, at(AzdAqPresent)),
      AzdSystem, at(AzdSystem)),
      AzdZone, at(AzdZone)),
      AzdFirmware, at(AzdFirmware))
  {
    AirQualityRunStepsFrom0(d, at);
    var r5 := Put(Put(Put(Put(Put(d, AzdAqVentActive, at(AzdAqVentActive)), AzdAqQuality, at(AzdAqQuality)), AzdAqScore, at(AzdAqScore)), AzdAqPm1, at(AzdAqPm1)), AzdAqPm2p5, at(AzdAqPm2p5));
    AirQualityRunStepsFrom5(r5, at);
    var r10 := Put(Put(Put(Put(Put(r5, AzdAqPm10, at(AzdAqPm10)), AzdAqCo2, at(AzdAqCo2)), AzdAqTvoc, at(AzdAqTvoc)), AzdAqHumidity, at(AzdAqHumidity)), AzdAqTemp, at(AzdAqTemp));
    AirQualityRunStepsFrom10(r10, at);
  }

  /** The air-quality device's entries of the inserted keys, as its accessors give them. */
  lemma AirQualityEntriesInserted(s: DeviceState, rd: Readings, ids: Identity, aq: AqReadings,
                                  firmware: Option<string>, system: int, zone: int, levels: map<string, string>)
    ensures var at := AirQualityEntries(s, rd, ids, aq, firmware, system, zone, levels);
      && at(AzdAqVentActive) == BoolEntry(aq.ventActive)
      && at(AzdAqQuality) == QualityEntry(rd.quality, levels)
      && at(AzdAqScore) == StrEntry(rd.score)
      && at(AzdAqPm1) == IntEntry(rd.pm1)
      && at(AzdAqPm2p5) == IntEntry(rd.pm2p5)
      && at(AzdAqPm10) == IntEntry(rd.pm10)
      && at(AzdAqCo2) == IntEntry(rd.co2)
      && at(AzdAqTvoc) == IntEntry(rd.tvoc)
      && at(AzdAqHumidity) == IntEntry(rd.humidity)
      && at(AzdAqTemp) == RealEntry(rd.temp)
      && at(AzdAqPressure) == RawEntry(aq.pressure)
      && at(AzdAqPresent) == BoolEntry(rd.present)
      && at(AzdSystem) == Some(VInt(system))
      && at(AzdZone) == Some(VInt(zone))
      && at(AzdFirmware) == StrEntry(firmware)
  {
    AirQualityExtraEntries(s, rd, ids, aq, firmware, system, zone, levels);
    AirQualityNumberEntries(s, rd, ids, aq, firmware, system, zone, levels);
    AirQualityEntryOf(s, rd, ids, aq, firmware, system, zone, levels, AzdAqQuality);
    AirQualityEntryOf(s, rd, ids, aq, firmware, system, zone, levels, AzdAqScore);
    AirQualityEntryOf(s, rd, ids, aq, firmware, system, zone, levels, AzdAqPm1);
    AirQualityEntryOf(s, rd, ids, aq, firmware, system, zone, levels, AzdAqPm2p5);
    AirQualityEntryOf(s, rd, ids, aq, firmware, system, zone, levels, AzdAqPm10);
    AirQualityEntryOf(s, rd, ids, aq, firmware, system, zone, levels, AzdAqCo2);
    AirQualityEntryOf(s, rd, ids, aq, firmware, system, zone, levels, AzdAqTvoc);
    AirQualityEntryOf(s, rd, ids, aq, firmware, system, zone, levels, AzdAqHumidity);
    AirQualityEntryOf(s, rd, ids, aq, firmware, system, zone, levels, AzdAqTemp);
    AirQualityEntryOf(s, rd, ids, aq, firmware, system, zone, levels, AzdAqPresent);
    ReadingEntriesFlags(s, rd, ids, levels);
    ReadingEntriesIndices(s, rd, ids, levels);
    ReadingEntriesParticles(s, rd, ids, levels);
    ReadingEntriesGases(s, rd, ids, levels);
  }

  /** `AirQuality.data`'s snapshot as the code builds it, with each accessor's entry. */
  lemma AirQualityOutputSteps(s: DeviceState, rd: Readings, ids: Identity, aq: AqReadings,
                              firmware: Option<string>, system: int, zone: int, levels: map<string, string>)
    ensures AirQualityOutput(s, rd, ids, aq, firmware, system, zone, levels) == Put(Put(Put(Put(Put(Put(Put(Put(Put(Put(Put(Put(Put(Put(Put(DeviceOutput(s, rd, ids, levels),
      AzdAqVentActive, BoolEntry(aq.ventActive)),
      AzdAqQuality, QualityEntry(rd.quality, levels)),
      AzdAqScore, StrEntry(rd.score)),
      AzdAqPm1, IntEntry(rd.pm1)),
      AzdAqPm2p5, IntEntry(rd.pm2p5)),
      AzdAqPm10, IntEntry(rd.pm10)),
      AzdAqCo2, IntEntry(rd.co2)),
      AzdAqTvoc, IntEntry(rd.tvoc)),
      AzdAqHumidity, IntEntry(rd.humidity)),
      AzdAqTemp, RealEntry(rd.temp)),
      AzdAqPressure, RawEntry(aq.pressure)),
      AzdAqPresent, BoolEntry(rd.present)),
      AzdSystem, Some(VInt(system))),
      AzdZone, Some(VInt(zone))),
      AzdFirmware, StrEntry(firmware))
  {
    AirQualityRunSteps(DeviceOutput(s, rd, ids, levels), AirQualityEntries(s, rd, ids, aq, firmware, system, zone, levels));
    AirQualityEntriesInserted(s, rd, ids, aq, firmware, system, zone, levels);
  }

  /**
   * The keys only an air-quality device adds: the system and zone numbers always,
   * the ventilation flag, the raw pressure and the firmware when they are set.
   */
  lemma AirQualityOutputExtras(s: DeviceState, rd: Readings, ids: Identity, aq: AqReadings,
                               firmware: Option<string>, system: int, zone: int, levels: map<string, string>)
    ensures var d := AirQualityOutput(s, rd, ids, aq, firmware, system, zone, levels);
      && AzdSystem in d && d[AzdSystem] == VInt(system)
      && AzdZone in d && d[AzdZone] == VInt(zone)
      && (AzdAqVentActive in d <==> aq.ventActive.Some?)
      && (AzdAqPressure in d <==> aq.pressure.Some?)
      && (AzdFirmware in d <==> firmware.Some?)
      && (AzdAqPressure in d ==> d[AzdAqPressure] == VRaw(aq.pressure.value))
      && (AzdFirmware in d ==> d[AzdFirmware] == VStr(firmware.value))
  {
    AirQualityExtraEntries(s, rd, ids, aq, firmware, system, zone, levels);
    AirQualityNumberEntries(s, rd, ids, aq, firmware, system, zone, levels);
    AirQualityOutputAt(s, rd, ids, aq, firmware, system, zone, levels, AzdSystem);
    AirQualityOutputAt(s, rd, ids, aq, firmware, system, zone, levels, AzdZone);
    AirQualityOutputAt(s, rd, ids, aq, firmware, system, zone, levels, AzdAqVentActive);
    AirQualityOutputAt(s, rd, ids, aq, firmware, system, zone, levels, AzdAqPressure);
    AirQualityOutputAt(s, rd, ids, aq, firmware, system, zone, levels, AzdFirmware);
  }

  /**
   * On every key a plain device can emit, the air-quality snapshot agrees with
   * the device snapshot: `AirQuality.data` only adds to what `Device.data` built.
   */
  lemma AirQualityOutputExtendsDevice(s: DeviceState, rd: Readings, ids: Identity, aq: AqReadings,
                                      firmware: Option<string>, system: int, zone: int, levels: map<string, string>)
    ensures var d := AirQualityOutput(s, rd, ids, aq, firmware, system, zone, levels);
      var base := DeviceOutput(s, rd, ids, levels);
      forall k: OutputKey :: k.OfDevice() ==> (k in d <==> k in base) && (k in d ==> d[k] == base[k])
  {
    var d := AirQualityOutput(s, rd, ids, aq, firmware, system, zone, levels);
    var base := DeviceOutput(s, rd, ids, levels);
    forall k: OutputKey | k.OfDevice()
      ensures (k in d <==> k in base) && (k in d ==> d[k] == base[k])
    {
      AirQualityOutputAt(s, rd, ids, aq, firmware, system, zone, levels, k);
      DeviceOutputAt(s, rd, ids, levels, k);
      AirQualityEntryOf(s, rd, ids, aq, firmware, system, zone, levels, k);
    }
  }

  /**
   * device.py:146-150 (and air_quality.py:98-102): walk the level table and store
   * the value of the entry whose key is the raw quality level.
   */
  method InsertQualityLevel(d: Output, quality: string, levels: map<string, string>) returns (r: Output)
    ensures quality in levels ==> r == d[AzdAqQuality := VStr(levels[quality])]
    ensures quality !in levels ==> r == d
  {
    r := d;
    var pending := levels.Keys;
    while pending != {}
      invariant pending <= levels.Keys
      invariant r == if quality in levels && quality !in pending then d[AzdAqQuality := VStr(levels[quality])] else d
      decreases |pending|
    {
      var key :| key in pending;
      if quality == key {
        r := r[AzdAqQuality := VStr(levels[key])];
      }
      pending := pending - {key};
    }
  }
}
