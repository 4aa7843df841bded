/**
 * The value-level specification of what `AirQuality` (aioairzone_cloud/air_quality.py)
 * adds to a `Device`: the system and zone numbers and the name fixed at
 * construction, three extra fields, the merge that runs the device merge first
 * and then re-applies the air-quality keys, and the insert-if-absent registries
 * of systems and zones.
 */
module AirQualitySpec {
  import opened Wrappers
  import opened Json
  import opened Common
  import opened Const
  import opened DeviceSpec

  /** The fields only an `AirQuality` has and `update_data` changes. */
  datatype AqExtras = AqExtras(
    ventActive: Option<bool>,
    pressure: Option<JsonValue>,  // stored as it arrives, unparsed
    sensorFw: Option<string>)

  /** The device fields, the extra fields, and how the update ended. */
  datatype AqApplied = AqApplied(state: DeviceState, extras: AqExtras, status: Status)

  /** The extra fields `AirQuality.__init__` leaves unset. */
  const NO_EXTRAS := AqExtras(None, None, None)

  /**
   * `AirQuality.update_data` (air_quality.py:252-309): the device merge first; if
   * it raised, nothing more happens. Otherwise the air-quality stages follow.
   */
  function MergeAirQuality(f: DeviceState, x: AqExtras, u: Object, ext: Externals): AqApplied
  {
    var r := Merge(f, u, ext);
    if r.status.Raised? then AqApplied(r.state, x, r.status) else
    MergeAirQualityStages(r.state, x, u, ext)
  }

  /**
   * The part of `AirQuality.update_data` after the device update
   * (air_quality.py:256-309): the ventilation flag, the levels, the temperature,
   * the pressure, the indices and the firmware, in that order.
   */
  function MergeAirQualityStages(g: DeviceState, x: AqExtras, u: Object, ext: Externals): AqApplied
  {
    var x1 := x.(ventActive := OverwriteOpt(x.ventActive, ext.parseBool(Get(u, API_AQ_VENT_ACTIVE))));
    var t := MergeTemp(MergeLevels(g, u, ext), u, ext);
    if t.status.Raised? then AqApplied(t.state, x1, t.status) else
    var pressure := Get(u, API_AQ_PRESSURE);
    var x2 := if pressure != JNull then x1.(pressure := Some(pressure)) else x1;
    AqApplied(MergeIndices(t.state, u, ext), x2.(sensorFw := OverwriteOpt(x2.sensorFw, ext.parseStr(Get(u, API_AQ_SENSOR_FW)))), Done)
  }

  /** A merge that runs to its end leaves in each re-applied field what its own stage wrote. */
  lemma MergeDoneStages(f: DeviceState, u: Object, ext: Externals)
    requires Merge(f, u, ext).status == Done
    ensures var a1 := MergeTemp(MergeLevels(MergeConnectivity(f, u, ext), u, ext), u, ext);
      var i := MergeIndices(a1.state, u, ext);
      var g := Merge(f, u, ext).state;
      && a1.status == Done && g.aqTemp == a1.state.aqTemp
      && g.aqPresent == i.aqPresent && g.aqQuality == i.aqQuality && g.aqScore == i.aqScore
  {
    var a1 := MergeTemp(MergeLevels(MergeConnectivity(f, u, ext), u, ext), u, ext);
    var i := MergeIndices(a1.state, u, ext);
    var a2 := MergeAutoMode(i, u, ext);
    var a3 := MergeErrors(MergeSetPoints(a2.state, u, ext), u);
    var a4 := MergeModes(a3.state, u, ext);
    assert a2.state.aqTemp == a1.state.aqTemp && a2.state.aqPresent == i.aqPresent;
    assert a4.state.aqTemp == a1.state.aqTemp && a4.state.aqPresent == i.aqPresent;
    assert a4.state.aqQuality == i.aqQuality && a4.state.aqScore == i.aqScore;
  }

  /**
   * Re-applying the air-quality keys after the device merge changes no device
   * field: the device part of the result, and how the update ends, are those of
   * the device merge alone. In particular the second temperature lookup never raises.
   */
  lemma AirQualityMergeBase(f: DeviceState, x: AqExtras, u: Object, ext: Externals)
    ensures MergeAirQuality(f, x, u, ext).state == Merge(f, u, ext).state
    ensures MergeAirQuality(f, x, u, ext).status == Merge(f, u, ext).status
  {
    var r := Merge(f, u, ext);
    if r.status == Done {
      var g := r.state;
      var c := MergeConnectivity(f, u, ext);
      var l := MergeLevels(c, u, ext);
      var a1 := MergeTemp(l, u, ext);
      MergeTailKeepsReadings(f, u, ext);
      MergeDoneStages(f, u, ext);
      LevelsAgain(c, g, u, ext);
      TempAgain(l, g, u, ext);
      IndicesAgain(a1.state, g, u, ext);
    }
  }

  /**
   * Where the update runs to its end, the ventilation flag and the firmware follow
   * the guarded-write rule and a present pressure is stored raw; where the device
   * merge raised, the extra fields are as they were.
   */
  lemma AirQualityMergeExtras(f: DeviceState, x: AqExtras, u: Object, ext: Externals)
    ensures var r := MergeAirQuality(f, x, u, ext);
      r.status.Done? ==>
        && GuardedOpt(x.ventActive, r.extras.ventActive, ext.parseBool(Get(u, API_AQ_VENT_ACTIVE)))
        && GuardedOpt(x.sensorFw, r.extras.sensorFw, ext.parseStr(Get(u, API_AQ_SENSOR_FW)))
        && (Get(u, API_AQ_PRESSURE) != JNull ==> r.extras.pressure == Some(Get(u, API_AQ_PRESSURE)))
        && (Get(u, API_AQ_PRESSURE) == JNull ==> r.extras.pressure == x.pressure)
    ensures var r := MergeAirQuality(f, x, u, ext);
      r.status.Raised? ==> r.extras == x
  {
    AirQualityMergeBase(f, x, u, ext);
  }

  /** Applying the same update twice to an air-quality device leaves what applying it once leaves. */
  lemma AirQualityMergeIdempotent(f: DeviceState, x: AqExtras, u: Object, ext: Externals)
    ensures var r := MergeAirQuality(f, x, u, ext);
      MergeAirQuality(r.state, r.extras, u, ext) == r
  {
    var r := MergeAirQuality(f, x, u, ext);
    AirQualityMergeBase(f, x, u, ext);
    MergeIdempotent(f, u, ext);
    AirQualityMergeBase(r.state, r.extras, u, ext);
  }

  /**
   * `AirQuality.__init__`'s `int(sub_data[...])` of the system and zone numbers
   * (air_quality.py:80-82); `None` where the lookup or a conversion raises.
   */
  function SystemAndZone(deviceData: Object, ext: Externals): (r: Option<(int, int)>)
    ensures r.Some? ==> SubData(deviceData).Some? && SubData(deviceData).value.JObject?
    ensures r.Some? ==> var sub := SubData(deviceData).value.fields;
      && API_SYSTEM_NUMBER in sub && API_ZONE_NUMBER in sub
      && ext.toInt(sub[API_SYSTEM_NUMBER]) == Some(r.value.0)
      && ext.toInt(sub[API_ZONE_NUMBER]) == Some(r.value.1)
    ensures SubData(deviceData).Some? && SubData(deviceData).value.JObject? ==>
      var sub := SubData(deviceData).value.fields;
      API_SYSTEM_NUMBER in sub && API_ZONE_NUMBER in sub
      && ext.toInt(sub[API_SYSTEM_NUMBER]).Some? && ext.toInt(sub[API_ZONE_NUMBER]).Some?
      ==> r.Some?
  {
    match SubData(deviceData)
    case None => None
    case Some(sub) =>
      if !sub.JObject? || API_SYSTEM_NUMBER !in sub.fields || API_ZONE_NUMBER !in sub.fields then None
      else match (ext.toInt(sub.fields[API_SYSTEM_NUMBER]), ext.toInt(sub.fields[API_ZONE_NUMBER]))
        case (Some(s), Some(z)) => Some((s, z))
        case _ => None
  }

  // Python's decimal formatting of an `int`, as an f-string writes it.

  function Digit(d: nat): (c: char)
    requires d < 10
  {
    "0123456789"[d]
  }

  predicate IsDigit(c: char)
  {
    '0' <= c <= '9'
  }

  predicate AllDigits(s: string)
  {
    forall i :: 0 <= i < |s| ==> IsDigit(s[i])
  }

  /** The decimal digits of `n`, most significant first, without leading zeros. */
  function NatToString(n: nat): (r: string)
    ensures |r| > 0 && AllDigits(r)
    ensures r[0] == '0' ==> n == 0
    decreases n
  {
    if n < 10 then [Digit(n)] else NatToString(n / 10) + [Digit(n % 10)]
  }

  /** The number a string of decimal digits denotes. */
  function DecimalValue(s: string): nat
    requires AllDigits(s)
    decreases |s|
  {
    if s == [] then 0 else DecimalValue(s[..|s| - 1]) * 10 + (s[|s| - 1] as int - '0' as int)
  }

  /** Reading back the digits of `n` gives `n`. */
  lemma {:induction false} NatToStringRoundTrip(n: nat)
    ensures DecimalValue(NatToString(n)) == n
    decreases n
  {
    if n >= 10 {
      NatToStringRoundTrip(n / 10);
      var s := NatToString(n);
      assert s[..|s| - 1] == NatToString(n / 10);
    }
  }

  /** `f"{i}"` of an `int`: a minus sign before the digits of a negative number. */
  function IntToString(i: int): (r: string)
    ensures |r| > 0
    ensures r[0] == '-' <==> i < 0
    ensures r[0] == '-' ==> AllDigits(r[1..])
    ensures r[0] != '-' ==> AllDigits(r)
  {
    if i < 0 then "-" + NatToString(-i) else NatToString(i)
  }

  /** The number a decimal string, possibly signed, denotes. */
  function IntValue(s: string): int
    requires |s| > 0 && (if s[0] == '-' then AllDigits(s[1..]) else AllDigits(s))
  {
    if s[0] == '-' then 0 - DecimalValue(s[1..]) else DecimalValue(s)
  }

  /** Reading back the formatted number gives the number. */
  lemma IntToStringRoundTrip(i: int)
    ensures IntValue(IntToString(i)) == i
  {
    if i < 0 {
      var digits := NatToString(-i);
      NatToStringRoundTrip(-i);
      assert ("-" + digits)[1..] == digits;
      assert IntToString(i) == "-" + digits;
    } else {
      NatToStringRoundTrip(i);
    }
  }

  /** The fixed start of the fallback name. */
  const FALLBACK_PREFIX := "Air Quality "

  /**
   * The name `AirQuality.__init__` gives (air_quality.py:84-88): the parsed name
   * when there is one, else "Air Quality {system}:{zone}".
   */
  function AirQualityName(deviceData: Object, system: int, zone: int, ext: Externals): (r: string)
    ensures ext.parseStr(Get(deviceData, API_NAME)).Some? ==> r == ext.parseStr(Get(deviceData, API_NAME)).value
    ensures ext.parseStr(Get(deviceData, API_NAME)).None? ==>
      && |FALLBACK_PREFIX| < |r| && r[..|FALLBACK_PREFIX|] == FALLBACK_PREFIX
      && r[|FALLBACK_PREFIX|..] == IntToString(system) + ":" + IntToString(zone)
  {
    match ext.parseStr(Get(deviceData, API_NAME))
    case Some(name) => name
    case None =>
      var numbers := IntToString(system) + ":" + IntToString(zone);
      assert (FALLBACK_PREFIX + numbers)[|FALLBACK_PREFIX|..] == numbers;
      FALLBACK_PREFIX + numbers
  }

  /** The fallback name spells out the two numbers so that they can be read back. */
  lemma AirQualityNameFallback(deviceData: Object, system: int, zone: int, ext: Externals)
    requires ext.parseStr(Get(deviceData, API_NAME)).None?
    ensures var tail := AirQualityName(deviceData, system, zone, ext)[|FALLBACK_PREFIX|..];
      var k := |IntToString(system)|;
      && k < |tail| && tail[k] == ':'
      && IntValue(tail[..k]) == system && IntValue(tail[k + 1..]) == zone
  {
    var a, b := IntToString(system), IntToString(zone);
    var tail := AirQualityName(deviceData, system, zone, ext)[|FALLBACK_PREFIX|..];
    assert tail == a + ":" + b;
    assert tail[..|a|] == a;
    assert tail[|a| + 1..] == b;
    IntToStringRoundTrip(system);
    IntToStringRoundTrip(zone);
  }

  /**
   * A payload whose meta block carries the numbers "1" and "2" and no name gives
   * system 1, zone 2 and the name "Air Quality 1:2".
   */
  lemma MetaPayloadExample(ext: Externals)
    requires ext.toInt(JString("1")) == Some(1) && ext.toInt(JString("2")) == Some(2)
    requires ext.parseStr(JNull).None?
    ensures var meta := JObject(map[API_SYSTEM_NUMBER := JString("1"), API_ZONE_NUMBER := JString("2")]);
      var d := map[API_DEVICE_ID := JString("aq1"), API_META := meta];
      && SubData(d) == Some(meta)
      && SystemAndZone(d, ext) == Some((1, 2))
      && AirQualityName(d, 1, 2, ext) == "Air Quality 1:2"
  {
    var meta := JObject(map[API_SYSTEM_NUMBER := JString("1"), API_ZONE_NUMBER := JString("2")]);
    var d := map[API_DEVICE_ID := JString("aq1"), API_META := meta];
    assert Get(d, API_META) == meta;
    assert Get(d, API_NAME) == JNull;
    assert IntToString(1) == "1" && IntToString(2) == "2";
  }

  /**
   * `add_system` / `add_zone` (air_quality.py:225-235): insert under the id only
   * when the id is not registered yet.
   */
  function AddAbsent<V>(m: map<string, V>, id: string, v: V): (r: map<string, V>)
    ensures r.Keys == m.Keys + {id}
    ensures forall k :: k in m ==> r[k] == m[k]
    ensures id !in m ==> r[id] == v
  {
    if id in m then m else m[id := v]
  }

  /** A second registration under the same id, of any entry, changes nothing. */
  lemma AddAbsentIdempotent<V>(m: map<string, V>, id: string, v: V, w: V)
    ensures AddAbsent(AddAbsent(m, id, v), id, w) == AddAbsent(m, id, v)
  {
  }
}
