/**
 * The keys of the vendor payload (`API_*`) and of the flattened snapshot
 * (`AZD_*`). Of the `API_*` strings only their distinctness matters, and only
 * to the two concrete payloads (`MergeCanBreakModeInModes`, `MetaPayloadExample`).
 * The `AZD_*` keys are an enumeration, so they are distinct.
 */
module Const {

  const API_AQ_ACTIVE := "aq_active"
  const API_AQ_CO2 := "aq_co2"
  const API_AQ_HUMIDITY := "aq_humidity"
  const API_AQ_PM_1 := "aq_pm1"
  const API_AQ_PM_2P5 := "aq_pm2_5"
  const API_AQ_PM_10 := "aq_pm10"
  const API_AQ_PRESENT := "aq_present"
  const API_AQ_PRESSURE := "aq_pressure"
  const API_AQ_QUALITY := "aq_quality"
  const API_AQ_SCORE := "aq_score"
  const API_AQ_SENSOR_FW := "aq_sensor_fw"
  const API_AQ_TEMP := "aq_temp"
  const API_AQ_TEMP_CELSIUS := "celsius"
  const API_AQ_TVOC := "aq_tvoc"
  const API_AQ_VENT_ACTIVE := "aq_vent_active"
  const API_AUTO_MODE := "auto_mode"
  const API_CONFIG := "config"
  const API_DEVICE_ID := "device_id"
  const API_DOUBLE_SET_POINT := "double_sp"
  const API_DUAL_SP_CONF := "dual_sp_conf"
  const API_ERRORS := "errors"
  const API_IS_CONNECTED := "isConnected"
  const API_META := "meta"
  const API_MODE := "mode"
  const API_MODE_AVAIL := "mode_available"
  const API_NAME := "name"
  const API_SIMULATOR_MODE := "simulator_mode"
  const API_SYSTEM_NUMBER := "systemNumber"
  const API_WARNINGS := "warnings"
  const API_WS_CONNECTED := "ws_connected"
  const API_ZONE_NUMBER := "zoneNumber"

  /** Every key `Device.update_data` reads. */
  const DEVICE_UPDATE_KEYS: set<string> := {
    API_IS_CONNECTED, API_WS_CONNECTED, API_AQ_ACTIVE, API_AQ_PM_1, API_AQ_PM_2P5,
    API_AQ_PM_10, API_AQ_CO2, API_AQ_TVOC, API_AQ_HUMIDITY, API_AQ_TEMP, API_AQ_PRESENT,
    API_AQ_QUALITY, API_AQ_SCORE, API_AUTO_MODE, API_DOUBLE_SET_POINT, API_DUAL_SP_CONF,
    API_ERRORS, API_MODE, API_MODE_AVAIL, API_SIMULATOR_MODE, API_WARNINGS
  }

  /** The keys of the snapshot `data()` returns. */
  datatype OutputKey =
    | AzdAvailable | AzdDoubleSetPoint | AzdId | AzdInstallation | AzdIsConnected
    | AzdName | AzdProblems | AzdWebserver | AzdWsConnected
    | AzdAqActive | AzdAqQuality | AzdAqScore | AzdAqPm1 | AzdAqPm2p5 | AzdAqPm10
    | AzdAqCo2 | AzdAqTvoc | AzdAqHumidity | AzdAqTemp | AzdAqPresent
    | AzdDualSpConf | AzdErrors | AzdMode | AzdModeAuto | AzdModes | AzdSimulatorMode | AzdWarnings
    | AzdAqVentActive | AzdAqPressure | AzdSystem | AzdZone | AzdFirmware
  {
    /** A key `Device.data` can emit. */
    predicate OfDevice()
    {
      !(AzdAqVentActive? || AzdAqPressure? || AzdSystem? || AzdZone? || AzdFirmware?)
    }

    /** A key only `AirQuality.data` adds. */
    predicate OfAirQuality()
    {
      !OfDevice()
    }

    /** A key that carries an air-quality reading. */
    predicate IsReading()
    {
      AzdAqActive? || AzdAqQuality? || AzdAqScore? || AzdAqPm1? || AzdAqPm2p5? || AzdAqPm10?
      || AzdAqCo2? || AzdAqTvoc? || AzdAqHumidity? || AzdAqTemp? || AzdAqPresent?
      || AzdAqVentActive? || AzdAqPressure?
    }
  }
}
