/**
 * The long-lived entity objects: `Device` (aioairzone_cloud/device.py) and
 * `AirQuality` (aioairzone_cloud/air_quality.py). An `AirQuality` is a device
 * with extra fields; here it holds its device part as `base`, a `Device` of its
 * own, and writes the inherited fields there. Every method that changes state
 * is proved to leave the state its value-level specification describes.
 */
module Entities {
  import opened Wrappers
  import opened Json
  import opened Common
  import opened Const
  import opened DeviceSpec
  import opened AirQualitySpec
  import opened Snapshot

  /** A system an air-quality sensor serves; only its id matters here. */
  class System {
    const id: string

    constructor(id: string)
      ensures this.id == id
    {
      this.id := id;
    }
  }

  /** A zone an air-quality sensor serves; only its id matters here. */
  class Zone {
    const id: string

    constructor(id: string)
      ensures this.id == id
    {
      this.id := id;
    }
  }

  class Device {
    var airQuality: AirQuality?
    var isConnected: bool
    var wsConnected: bool
    var aqActive: Option<bool>
    var aqPm1: Option<int>
    var aqPm2p5: Option<int>
    var aqPm10: Option<int>
    var aqCo2: Option<int>
    var aqTvoc: Option<int>
    var aqHumidity: Option<int>
    var aqTemp: Option<real>
    var aqPresent: Option<bool>
    var aqQuality: Option<string>
    var aqScore: Option<string>
    var autoMode: Option<OperationMode>
    var doubleSetPoint: Option<bool>
    var dualSpConf: Option<bool>
    var errors: seq<JsonValue>
    var mode: Option<OperationMode>
    var modes: seq<OperationMode>
    var simulatorMode: Option<bool>
    var warnings: seq<JsonValue>
    var name: string
    const id: string
    const installationId: string
    const webserverId: string

    /** The device's own fields as a value. */
    function State(): DeviceState
      reads this
    {
      DeviceState(isConnected, wsConnected, aqActive, aqPm1, aqPm2p5, aqPm10, aqCo2,
                  aqTvoc, aqHumidity, aqTemp, aqPresent, aqQuality, aqScore, autoMode,
                  doubleSetPoint, dualSpConf, errors, mode, modes, simulatorMode, warnings, name)
    }

    function Ids(): Identity
    {
      Identity(id, installationId, webserverId)
    }

    /** The object the `get_aq_*` accessors read when an air-quality device is linked. */
    function Linked(): set<object>
      reads this
    {
      if airQuality == null then {} else {airQuality.base}
    }

    /** `Device.__init__` (device.py:78-112); `str(device_data[API_DEVICE_ID])` needs the key. */
    constructor(instId: string, wsId: string, deviceData: Object, ext: Externals)
      requires API_DEVICE_ID in deviceData
      ensures State() == InitialState(deviceData, ext)
      ensures id == ext.toStr(deviceData[API_DEVICE_ID])
      ensures installationId == instId && webserverId == wsId
      ensures airQuality == null
    {
      airQuality := null;
      autoMode := None;
      aqActive := None;
      aqPm1 := None;
      aqPm2p5 := None;
      aqPm10 := None;
      aqCo2 := None;
      aqTvoc := None;
      aqHumidity := None;
      aqTemp := None;
      aqPresent := None;
      aqQuality := None;
      aqScore := None;
      doubleSetPoint := None;
      dualSpConf := None;
      errors := [];
      id := ext.toStr(deviceData[API_DEVICE_ID]);
      installationId := instId;
      mode := None;
      modes := [];
      name := "Device";
      simulatorMode := None;
      warnings := [];
      webserverId := wsId;
      wsConnected := true;
      var connected := ext.parseBool(Get(deviceData, API_IS_CONNECTED));
      if connected.Some? {
        isConnected := connected.value;
      } else {
        isConnected := true;
      }
    }

    // The delegating accessors (device.py:218-291): the linked air-quality
    // device's reading when one is set, the local field otherwise.

    function GetAqActive(): Option<bool>
      reads this, Linked()
    {
      if airQuality != null then airQuality.base.aqActive else aqActive
    }

    function GetAqQuality(): Option<string>
      reads this, Linked()
    {
      if airQuality != null then airQuality.base.aqQuality else aqQuality
    }

    function GetAqScore(): Option<string>
      reads this, Linked()
    {
      if airQuality != null then airQuality.base.aqScore else aqScore
    }

    function GetAqPm1(): Option<int>
      reads this, Linked()
    {
      if airQuality != null then airQuality.base.aqPm1 else aqPm1
    }

    function GetAqPm2p5(): Option<int>
      reads this, Linked()
    {
      if airQuality != null then airQuality.base.aqPm2p5 else aqPm2p5
    }

    function GetAqPm10(): Option<int>
      reads this, Linked()
    {
      if airQuality != null then airQuality.base.aqPm10 else aqPm10
    }

    function GetAqCo2(): Option<int>
      reads this, Linked()
    {
      if airQuality != null then airQuality.base.aqCo2 else aqCo2
    }

    function GetAqTvoc(): Option<int>
      reads this, Linked()
    {
      if airQuality != null then airQuality.base.aqTvoc else aqTvoc
    }

    function GetAqTemp(): Option<real>
      reads this, Linked()
    {
      if airQuality != null then airQuality.base.aqTemp else aqTemp
    }

    function GetAqHumidity(): Option<int>
      reads this, Linked()
    {
      if airQuality != null then airQuality.base.aqHumidity else aqHumidity
    }

    function GetAqPresent(): Option<bool>
      reads this, Linked()
    {
      if airQuality != null then airQuality.base.aqPresent else aqPresent
    }

    /**
     * The readings the accessors report: the linked device's, whatever the local
     * fields hold, when one is set; the local ones otherwise.
     */
    function Reported(): (r: Readings)
      reads this, Linked()
      ensures airQuality != null ==> r == ReadingsOf(airQuality.base.State())
      ensures airQuality == null ==> r == ReadingsOf(State())
    {
      Readings(GetAqActive(), GetAqQuality(), GetAqScore(), GetAqPm1(), GetAqPm2p5(), GetAqPm10(),
               GetAqCo2(), GetAqTvoc(), GetAqHumidity(), GetAqTemp(), GetAqPresent())
    }

    // The derived accessors (device.py:293-359).

    /** Available exactly when both the device and its webserver are connected. */
    function GetAvailable(): (r: bool)
      reads this
      ensures r <==> isConnected && wsConnected
    {
      isConnected && wsConnected
    }

    /** An unset double set point reads as false. */
    function GetDoubleSetPoint(): (r: bool)
      reads this
      ensures r <==> doubleSetPoint == Some(true)
    {
      if doubleSetPoint.Some? then doubleSetPoint.value else false
    }

    function GetDualSpConf(): (r: Option<bool>)
      reads this
      ensures r == State().dualSpConf
    {
      dualSpConf
    }

    function GetErrors(): (r: seq<JsonValue>)
      reads this
      ensures r == State().errors
    {
      errors
    }

    function GetId(): (r: string)
      ensures r == Ids().id
    {
      id
    }

    function GetInstallation(): (r: string)
      ensures r == Ids().installation
    {
      installationId
    }

    function GetIsConnected(): (r: bool)
      reads this
      ensures r == State().isConnected
    {
      isConnected
    }

    function GetMode(): (r: Option<OperationMode>)
      reads this
      ensures r == State().mode
    {
      mode
    }

    function GetModeAuto(): (r: Option<OperationMode>)
      reads this
      ensures r == State().autoMode
    {
      autoMode
    }

    /** The available modes, or nothing when there are none. */
    function GetModes(): (r: Option<seq<OperationMode>>)
      reads this
      ensures r.None? <==> |modes| == 0
      ensures r.Some? ==> r.value == modes
    {
      if |modes| > 0 then Some(modes) else None
    }

    function GetName(): (r: string)
      reads this
      ensures r == State().name
    {
      name
    }

    /** A problem is reported exactly when an error or a warning is recorded. */
    function GetProblems(): (r: bool)
      reads this
      ensures r <==> |errors| + |warnings| > 0
    {
      errors != [] || warnings != []
    }

    function GetSimulatorMode(): (r: Option<bool>)
      reads this
      ensures r == State().simulatorMode
    {
      simulatorMode
    }

    function GetWarnings(): (r: seq<JsonValue>)
      reads this
      ensures r == State().warnings
    {
      warnings
    }

    function GetWebserver(): (r: string)
      ensures r == Ids().webserver
    {
      webserverId
    }

    function GetWsConnected(): (r: bool)
      reads this
      ensures r == State().wsConnected
    {
      wsConnected
    }

    /** `set_air_quality` (device.py:361-363): from now on the readings are the linked device's. */
    method SetAirQuality(aq: AirQuality)
      modifies this`airQuality
      ensures airQuality == aq
      ensures Reported() == ReadingsOf(aq.base.State())
    {
      airQuality := aq;
    }

    /** `set_mode` (device.py:365-371). */
    method SetMode(m: JsonValue, ext: Externals) returns (status: Status)
      modifies this`mode
      ensures Applied(State(), status) == GuardedMode(old(State()), m, ext)
      ensures ModeInModes(old(State())) ==> ModeInModes(State())
    {
      var converted := ext.operationMode(m);
      if converted.None? {
        return Raised(ValueError);
      }
      status := Done;
      if converted.value in modes {
        mode := converted;
      }
    }

    // The stages of `update_data`, one method per block of the code.

    method ApplyConnectivity(u: Object, ext: Externals)
      modifies this`isConnected, this`wsConnected, this`aqActive
      ensures State() == MergeConnectivity(old(State()), u, ext)
    {
      ApplyConnection(u, ext);
      var active := ext.parseBool(Get(u, API_AQ_ACTIVE));
      if active.Some? {
        aqActive := active;
      }
    }

    /** The two connection flags, each overwritten only by a value that parses. */
    method ApplyConnection(u: Object, ext: Externals)
      modifies this`isConnected, this`wsConnected
      ensures State() == old(State()).(isConnected := Overwrite(old(isConnected), ext.parseBool(Get(u, API_IS_CONNECTED))),
                                       wsConnected := Overwrite(old(wsConnected), ext.parseBool(Get(u, API_WS_CONNECTED))))
    {
      var connected := ext.parseBool(Get(u, API_IS_CONNECTED));
      if connected.Some? {
        isConnected := connected.value;
      }
      var ws := ext.parseBool(Get(u, API_WS_CONNECTED));
      if ws.Some? {
        wsConnected := ws.value;
      }
    }

    method ApplyLevels(u: Object, ext: Externals)
      modifies this`aqPm1, this`aqPm2p5, this`aqPm10, this`aqCo2, this`aqTvoc, this`aqHumidity
      ensures State() == MergeLevels(old(State()), u, ext)
    {
      ApplyFineParticles(u, ext);
      ApplyPm10AndCo2(u, ext);
      ApplyTvocAndHumidity(u, ext);
    }

    /** The PM1 and PM2.5 levels, each overwritten only by a value that parses. */
    method ApplyFineParticles(u: Object, ext: Externals)
      modifies this`aqPm1, this`aqPm2p5
      ensures State() == old(State()).(aqPm1 := OverwriteOpt(old(aqPm1), ext.parseInt(Get(u, API_AQ_PM_1))), aqPm2p5 := OverwriteOpt(old(aqPm2p5), ext.parseInt(Get(u, API_AQ_PM_2P5))))
    {
      aqPm1 := OverwriteOpt(aqPm1, ext.parseInt(Get(u, API_AQ_PM_1)));
      aqPm2p5 := OverwriteOpt(aqPm2p5, ext.parseInt(Get(u, API_AQ_PM_2P5)));
    }

    /** The PM10 level and the CO2 level, each overwritten only by a value that parses. */
    method ApplyPm10AndCo2(u: Object, ext: Externals)
      modifies this`aqPm10, this`aqCo2
      ensures State() == old(State()).(aqPm10 := OverwriteOpt(old(aqPm10), ext.parseInt(Get(u, API_AQ_PM_10))), aqCo2 := OverwriteOpt(old(aqCo2), ext.parseInt(Get(u, API_AQ_CO2))))
    {
      aqPm10 := OverwriteOpt(aqPm10, ext.parseInt(Get(u, API_AQ_PM_10)));
      aqCo2 := OverwriteOpt(aqCo2, ext.parseInt(Get(u, API_AQ_CO2)));
    }

    /** The TVOC level and the humidity, each overwritten only by a value that parses. */
    method ApplyTvocAndHumidity(u: Object, ext: Externals)
      modifies this`aqTvoc, this`aqHumidity
      ensures State() == old(State()).(aqTvoc := OverwriteOpt(old(aqTvoc), ext.parseInt(Get(u, API_AQ_TVOC))), aqHumidity := OverwriteOpt(old(aqHumidity), ext.parseInt(Get(u, API_AQ_HUMIDITY))))
    {
      aqTvoc := OverwriteOpt(aqTvoc, ext.parseInt(Get(u, API_AQ_TVOC)));
      aqHumidity := OverwriteOpt(aqHumidity, ext.parseInt(Get(u, API_AQ_HUMIDITY)));
    }

    method ApplyTemp(u: Object, ext: Externals) returns (status: Status)
      modifies this`aqTemp
      ensures Applied(State(), status) == MergeTemp(old(State()), u, ext)
    {
      status := Done;
      var temp := Get(u, API_AQ_TEMP);
      if temp != JNull {
        if !temp.JObject? {
          return Raised(AttributeError);
        }
        aqTemp := ext.parseFloat(Get(temp.fields, API_AQ_TEMP_CELSIUS));
      }
    }

    method ApplyIndices(u: Object, ext: Externals)
      modifies this`aqPresent, this`aqQuality, this`aqScore
      ensures State() == MergeIndices(old(State()), u, ext)
    {
      var present := ext.parseBool(Get(u, API_AQ_PRESENT));
      if present.Some? {
        aqPresent := present;
      }
      ApplyQualityAndScore(u, ext);
    }

    /** The quality and the score, each overwritten only by a value that parses. */
    method ApplyQualityAndScore(u: Object, ext: Externals)
      modifies this`aqQuality, this`aqScore
      ensures State() == old(State()).(aqQuality := OverwriteOpt(old(aqQuality), ext.parseStr(Get(u, API_AQ_QUALITY))),
                                       aqScore := OverwriteOpt(old(aqScore), ext.parseStr(Get(u, API_AQ_SCORE))))
    {
      var quality := ext.parseStr(Get(u, API_AQ_QUALITY));
      if quality.Some? {
        aqQuality := quality;
      }
      var score := ext.parseStr(Get(u, API_AQ_SCORE));
      if score.Some? {
        aqScore := score;
      }
    }

    method ApplyAutoMode(u: Object, ext: Externals) returns (status: Status)
      modifies this`autoMode
      ensures Applied(State(), status) == MergeAutoMode(old(State()), u, ext)
    {
      status := Done;
      var raw := Get(u, API_AUTO_MODE);
      if raw != JNull {
        var converted := ext.operationMode(raw);
        if converted.None? {
          return Raised(ValueError);
        }
        autoMode := converted;
      }
    }

    method ApplySetPoints(u: Object, ext: Externals)
      modifies this`doubleSetPoint, this`dualSpConf
      ensures State() == MergeSetPoints(old(State()), u, ext)
    {
      var double := ext.parseBool(Get(u, API_DOUBLE_SET_POINT));
      if double.Some? {
        doubleSetPoint := double;
      }
      var dual := ext.parseBool(Get(u, API_DUAL_SP_CONF));
      if dual.Some? {
        dualSpConf := dual;
      }
    }

    /** device.py:445-449: empty the list, then append the elements one by one. */
    method ApplyErrors(u: Object) returns (status: Status)
      modifies this`errors
      ensures Applied(State(), status) == MergeErrors(old(State()), u)
    {
      status := Done;
      var raw := Get(u, API_ERRORS);
      if raw != JNull {
        errors := [];
        match Iterate(raw)
        case NotIterable =>
          status := Raised(TypeError);
        case UnorderedKeys =>
          status := Raised(UnorderedIteration);
        case Items(items) =>
          var i := 0;
          while i < |items|
            invariant 0 <= i <= |items|
            invariant errors == items[..i]
            invariant State() == old(State()).(errors := errors)
          {
            errors := errors + [items[i]];
            i := i + 1;
          }
          assert items[..|items|] == items;
      }
    }

    /**
     * device.py:451-459: the mode first, with no membership test; then, for a
     * non-empty list, the converted modes into a fresh list that replaces the
     * old one only once every element has converted.
     */
    method ApplyModes(u: Object, ext: Externals) returns (status: Status)
      modifies this`mode, this`modes
      ensures Applied(State(), status) == MergeModes(old(State()), u, ext)
    {
      status := Done;
      var rawMode := Get(u, API_MODE);
      if rawMode != JNull {
        var converted := ext.operationMode(rawMode);
        if converted.None? {
          return Raised(ValueError);
        }
        mode := converted;
      }
      var avail := Get(u, API_MODE_AVAIL);
      if avail != JNull {
        match Iterate(avail)
        case NotIterable =>
          status := Raised(TypeError);
        case UnorderedKeys =>
          status := Raised(UnorderedIteration);
        case Items(items) =>
          if |items| > 0 {
            var converted: seq<OperationMode> := [];
            var i := 0;
            while i < |items|
              invariant 0 <= i <= |items| && |converted| == i
              invariant forall j :: 0 <= j < i ==> ext.operationMode(items[j]) == Some(converted[j])
            {
              var m := ext.operationMode(items[i]);
              if m.None? {
                return Raised(ValueError);
              }
              converted := converted + [m.value];
              i := i + 1;
            }
            assert ConvertModes(items, ext).value == converted;
            modes := converted;
          }
      }
    }

    method ApplySimulator(u: Object, ext: Externals)
      modifies this`simulatorMode
      ensures State() == MergeSimulator(old(State()), u, ext)
    {
      var simulator := ext.parseBool(Get(u, API_SIMULATOR_MODE));
      if simulator.Some? {
        simulatorMode := simulator;
      }
    }

    /** device.py:465-469: as for the errors. */
    method ApplyWarnings(u: Object) returns (status: Status)
      modifies this`warnings
      ensures Applied(State(), status) == MergeWarnings(old(State()), u)
    {
      status := Done;
      var raw := Get(u, API_WARNINGS);
      if raw != JNull {
        warnings := [];
        match Iterate(raw)
        case NotIterable =>
          status := Raised(TypeError);
        case UnorderedKeys =>
          status := Raised(UnorderedIteration);
        case Items(items) =>
          var i := 0;
          while i < |items|
            invariant 0 <= i <= |items|
            invariant warnings == items[..i]
            invariant State() == old(State()).(warnings := warnings)
          {
            warnings := warnings + [items[i]];
            i := i + 1;
          }
          assert items[..|items|] == items;
      }
    }

    /**
     * `update_data` (device.py:377-469): the stages in order; a raise ends the
     * call and keeps what the earlier stages wrote.
     */
    method UpdateData(u: Object, ext: Externals) returns (status: Status)
      modifies this`isConnected, this`wsConnected, this`aqActive, this`aqPm1, this`aqPm2p5, this`aqPm10, this`aqCo2,
               this`aqTvoc, this`aqHumidity, this`aqTemp, this`aqPresent, this`aqQuality, this`aqScore, this`autoMode,
               this`doubleSetPoint, this`dualSpConf, this`errors, this`mode, this`modes, this`simulatorMode, this`warnings
      ensures Applied(State(), status) == Merge(old(State()), u, ext)
    {
      ApplyConnectivity(u, ext);
      ApplyLevels(u, ext);
      status := ApplyTemp(u, ext);
      if status.Raised? {
        return;
      }
      ApplyIndices(u, ext);
      status := ApplyAutoMode(u, ext);
      if status.Raised? {
        return;
      }
      ApplySetPoints(u, ext);
      status := ApplyErrors(u);
      if status.Raised? {
        return;
      }
      status := ApplyModes(u, ext);
      if status.Raised? {
        return;
      }
      ApplySimulator(u, ext);
      status := ApplyWarnings(u);
    }

    /**
     * `data` (device.py:128-216): the nine fixed keys, then each optional key that
     * has a value, inserted in turn.
     */
    method Data(ext: Externals) returns (d: Output)
      ensures d == DeviceOutput(State(), Reported(), Ids(), ext.qualityLevels)
    {
      ghost var s, rd, levels := State(), Reported(), ext.qualityLevels;
      d := map[
        AzdAvailable := VBool(GetAvailable()),
        AzdDoubleSetPoint := VBool(GetDoubleSetPoint()),
        AzdId := VStr(GetId()),
        AzdInstallation := VStr(GetInstallation()),
        AzdIsConnected := VBool(GetIsConnected()),
        AzdName := VStr(GetName()),
        AzdProblems := VBool(GetProblems()),
        AzdWebserver := VStr(GetWebserver()),
        AzdWsConnected := VBool(GetWsConnected())];
      assert d == DeviceFixed(s, Ids());
      var active := GetAqActive();
      d := Put(d, AzdAqActive, BoolEntry(active));
      var quality := GetAqQuality();
      ghost var before := d;
      if quality.Some? {
        d := InsertQualityLevel(d, quality.value, ext.qualityLevels);
      }
      assert d == Put(before, AzdAqQuality, QualityEntry(quality, levels));
      assert State() == s && Reported() == rd;
      var score := GetAqScore();
      d := Put(d, AzdAqScore, StrEntry(score));
      var pm1 := GetAqPm1();
      d := Put(d, AzdAqPm1, IntEntry(pm1));
      var pm2p5 := GetAqPm2p5();
      d := Put(d, AzdAqPm2p5, IntEntry(pm2p5));
      var pm10 := GetAqPm10();
      d := Put(d, AzdAqPm10, IntEntry(pm10));
      var co2 := GetAqCo2();
      d := Put(d, AzdAqCo2, IntEntry(co2));
      var tvoc := GetAqTvoc();
      d := Put(d, AzdAqTvoc, IntEntry(tvoc));
      var humidity := GetAqHumidity();
      d := Put(d, AzdAqHumidity, IntEntry(humidity));
      var temp := GetAqTemp();
      d := Put(d, AzdAqTemp, RealEntry(temp));
      var present := GetAqPresent();
      d := Put(d, AzdAqPresent, BoolEntry(present));
      var dual := GetDualSpConf();
      d := Put(d, AzdDualSpConf, BoolEntry(dual));
      var errs := GetErrors();
      d := Put(d, AzdErrors, ListEntry(errs));
      var current := GetMode();
      d := Put(d, AzdMode, ModeEntry(current));
      var auto := GetModeAuto();
      d := Put(d, AzdModeAuto, ModeEntry(auto));
      var available := GetModes();
      d := Put(d, AzdModes, ModesEntry(available));
      var simulator := GetSimulatorMode();
      d := Put(d, AzdSimulatorMode, BoolEntry(simulator));
      var warns := GetWarnings();
      d := Put(d, AzdWarnings, ListEntry(warns));
      DeviceOutputSteps(s, rd, Ids(), levels);
    }
  }

  class AirQuality {
    const base: Device
    const systemNumber: int
    const zoneNumber: int
    var aqVentActive: Option<bool>
    var aqPressure: Option<JsonValue>
    var aqSensorFw: Option<string>
    var systems: map<string, System>
    var zones: map<string, Zone>

    /** The extra fields as a value. */
    function Extras(): AqExtras
      reads this
    {
      AqExtras(aqVentActive, aqPressure, aqSensorFw)
    }

    /** The system and zone numbers fixed at construction. */
    function Numbers(): (int, int)
    {
      (systemNumber, zoneNumber)
    }

    /** The air-quality device the extra accessors read when one is linked. */
    function Link(): set<object>
      reads base
    {
      if base.airQuality == null then {} else {base.airQuality}
    }

    /**
     * `AirQuality.__init__` (air_quality.py:59-88). The device id must be there,
     * and the system and zone numbers must be found and convert; the code raises otherwise.
     */
    constructor(instId: string, wsId: string, deviceData: Object, ext: Externals)
      requires API_DEVICE_ID in deviceData
      requires SystemAndZone(deviceData, ext).Some?
      ensures fresh(base)
      ensures Numbers() == SystemAndZone(deviceData, ext).value
      ensures base.State() == InitialState(deviceData, ext).(name := AirQualityName(deviceData, systemNumber, zoneNumber, ext))
      ensures base.id == ext.toStr(deviceData[API_DEVICE_ID])
      ensures base.installationId == instId && base.webserverId == wsId
      ensures base.airQuality == null
      ensures Extras() == NO_EXTRAS && systems == map[] && zones == map[]
    {
      var device := new Device(instId, wsId, deviceData, ext);
      var numbers := SystemAndZone(deviceData, ext).value;
      device.name := AirQualityName(deviceData, numbers.0, numbers.1, ext);
      base := device;
      aqSensorFw := None;
      systems := map[];
      zones := map[];
      aqVentActive := None;
      aqPressure := None;
      systemNumber := numbers.0;
      zoneNumber := numbers.1;
    }

    function GetAqVentActive(): Option<bool>
      reads this, base, Link()
    {
      if base.airQuality != null then base.airQuality.aqVentActive else aqVentActive
    }

    function GetAqPressure(): Option<JsonValue>
      reads this, base, Link()
    {
      if base.airQuality != null then base.airQuality.aqPressure else aqPressure
    }

    /**
     * The extra readings the accessors report (air_quality.py:153-157, 207-211):
     * the linked device's when one is set, the local ones otherwise.
     */
    function ExtraReadings(): (r: AqReadings)
      reads this, base, Link()
      ensures base.airQuality != null ==>
        r == AqReadings(base.airQuality.aqVentActive, base.airQuality.aqPressure)
      ensures base.airQuality == null ==> r == AqReadings(aqVentActive, aqPressure)
    {
      AqReadings(GetAqVentActive(), GetAqPressure())
    }

    function GetAqSensorFw(): (r: Option<string>)
      reads this
      ensures r == Extras().sensorFw
    {
      aqSensorFw
    }

    function GetSystemNum(): (r: int)
      ensures r == Numbers().0
    {
      systemNumber
    }

    function GetZoneNum(): (r: int)
      ensures r == Numbers().1
    {
      zoneNumber
    }

    /** `add_system` (air_quality.py:225-229). */
    method AddSystem(system: System)
      modifies this`systems
      ensures systems == AddAbsent(old(systems), system.id, system)
    {
      if system.id !in systems {
        systems := systems[system.id := system];
      }
    }

    /** `add_zone` (air_quality.py:231-235). */
    method AddZone(zone: Zone)
      modifies this`zones
      ensures zones == AddAbsent(old(zones), zone.id, zone)
    {
      if zone.id !in zones {
        zones := zones[zone.id := zone];
      }
    }

    /** `set_param` (air_quality.py:249-250) does nothing. */
    method SetParam(param: string, data: Object)
      ensures unchanged(this, base)
    {
    }

    /**
     * `AirQuality.update_data` (air_quality.py:252-309): the device update, then,
     * unless it raised, the air-quality stages.
     */
    method UpdateData(u: Object, ext: Externals) returns (status: Status)
      modifies this`aqVentActive, this`aqPressure, this`aqSensorFw,
               base`isConnected, base`wsConnected, base`aqActive, base`aqPm1, base`aqPm2p5, base`aqPm10, base`aqCo2,
               base`aqTvoc, base`aqHumidity, base`aqTemp, base`aqPresent, base`aqQuality, base`aqScore, base`autoMode,
               base`doubleSetPoint, base`dualSpConf, base`errors, base`mode, base`modes, base`simulatorMode, base`warnings
      ensures AqApplied(base.State(), Extras(), status) == MergeAirQuality(old(base.State()), old(Extras()), u, ext)
      ensures systems == old(systems) && zones == old(zones)
      ensures base.airQuality == old(base.airQuality)
    {
      status := base.UpdateData(u, ext);
      if status.Raised? {
        return;
      }
      status := ApplyStages(u, ext);
    }

    /**
     * The rest of `update_data` (air_quality.py:256-309): the air-quality keys
     * again, on the device part, and the extra fields.
     */
    method ApplyStages(u: Object, ext: Externals) returns (status: Status)
      modifies this`aqVentActive, this`aqPressure, this`aqSensorFw,
               base`aqPm1, base`aqPm2p5, base`aqPm10, base`aqCo2, base`aqTvoc, base`aqHumidity,
               base`aqTemp, base`aqPresent, base`aqQuality, base`aqScore
      ensures AqApplied(base.State(), Extras(), status) == MergeAirQualityStages(old(base.State()), old(Extras()), u, ext)
    {
      aqVentActive := OverwriteOpt(aqVentActive, ext.parseBool(Get(u, API_AQ_VENT_ACTIVE)));
      base.ApplyLevels(u, ext);
      status := base.ApplyTemp(u, ext);
      if status.Raised? {
        return;
      }
      var pressure := Get(u, API_AQ_PRESSURE);
      if pressure != JNull {
        aqPressure := Some(pressure);
      }
      base.ApplyIndices(u, ext);
      aqSensorFw := OverwriteOpt(aqSensorFw, ext.parseStr(Get(u, API_AQ_SENSOR_FW)));
    }

    /**
     * `AirQuality.data` (air_quality.py:90-151): the device snapshot, the readings
     * stored again, and the keys of the extra fields.
     */
    method Data(ext: Externals) returns (d: Output)
      ensures d == AirQualityOutput(base.State(), base.Reported(), base.Ids(), ExtraReadings(),
                                    aqSensorFw, systemNumber, zoneNumber, ext.qualityLevels)
    {
      ghost var s, rd, ids, aq, levels := base.State(), base.Reported(), base.Ids(), ExtraReadings(), ext.qualityLevels;
      d := base.Data(ext);
      var vent := GetAqVentActive();
      d := Put(d, AzdAqVentActive, BoolEntry(vent));
      var quality := base.GetAqQuality();
      ghost var before := d;
      if quality.Some? {
        d := InsertQualityLevel(d, quality.value, ext.qualityLevels);
      }
      assert d == Put(before, AzdAqQuality, QualityEntry(quality, levels));
      assert base.State() == s && base.Reported() == rd && ExtraReadings() == aq;
      var score := base.GetAqScore();
      d := Put(d, AzdAqScore, StrEntry(score));
      var pm1 := base.GetAqPm1();
      d := Put(d, AzdAqPm1, IntEntry(pm1));
      var pm2p5 := base.GetAqPm2p5();
      d := Put(d, AzdAqPm2p5, IntEntry(pm2p5));
      var pm10 := base.GetAqPm10();
      d := Put(d, AzdAqPm10, IntEntry(pm10));
      var co2 := base.GetAqCo2();
      d := Put(d, AzdAqCo2, IntEntry(co2));
      var tvoc := base.GetAqTvoc();
      d := Put(d, AzdAqTvoc, IntEntry(tvoc));
      var humidity := base.GetAqHumidity();
      d := Put(d, AzdAqHumidity, IntEntry(humidity));
      var temp := base.GetAqTemp();
      d := Put(d, AzdAqTemp, RealEntry(temp));
      var pressure := GetAqPressure();
      d := Put(d, AzdAqPressure, RawEntry(pressure));
      var present := base.GetAqPresent();
      d := Put(d, AzdAqPresent, BoolEntry(present));
      d := Put(d, AzdSystem, Some(VInt(GetSystemNum())));
      d := Put(d, AzdZone, Some(VInt(GetZoneNum())));
      var fw := GetAqSensorFw();
      d := Put(d, AzdFirmware, StrEntry(fw));
      AirQualityOutputSteps(s, rd, ids, aq, aqSensorFw, systemNumber, zoneNumber, levels);
    }
  }
}
