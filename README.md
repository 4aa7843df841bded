# Airzone Cloud device entities: update merge and snapshot

This project models the entity layer of the `aioairzone_cloud` client library:

- a `Device` is a long-lived record of one HVAC unit's state;
- an `AirQuality` is a device that also carries an air-quality sensor's extra readings.

It covers three things. Each cloud poll or event delivers a partial JSON mapping, and `update_data` merges it into the entity field by field. `data()` flattens the entity into a map keyed by fixed output identifiers. The accessors read air-quality values through a linked `AirQuality` when one is set.

The project has three layers.

- **Value-level specification.** `DeviceSpec.Merge` and `AirQualitySpec.MergeAirQuality` are the merge as functions from the old state and the update mapping to the new state.
  - They are staged in the order the code runs.
  - A stage that raises a Python exception ends the chain, and the writes made before it stay in place. The update is not atomic.
  - `Snapshot.DeviceOutput` and `Snapshot.AirQualityOutput` define the snapshot as the result of a run of insertions. The lemmas there state key by key what the snapshot holds.
- **Entities.** `Entities.Device` and `Entities.AirQuality` are classes whose fields the methods update in place.
  - `UpdateData` is split into one method per block of the source. Each is proved to leave exactly the state its specification function describes.
  - `Data` builds the snapshot insertion by insertion. It is proved to arrive at the specified map.
  - The loops of the source are `while` loops with invariants: rebuilding the error and warning lists, converting the available modes, and walking the quality-level table.
- **Properties of the specification.** These are proved as lemmas, including:
  - the guarded-write rule for every parser-guarded field and its exceptions (the temperature, the lists, the mode list);
  - the unguarded mode write in the merge, against the guarded `set_mode`;
  - idempotence of the merge for `Device` and for `AirQuality`;
  - that an `AirQuality` snapshot extends the device snapshot;
  - that the fallback name can be read back into its system and zone numbers.

The helpers the entities call come from modules that are not part of this model: the parsers `parse_bool`, `parse_int`, `parse_float` and `parse_str`, `OperationMode(...)`, Python's `int()` and `str()`, and the quality-level table. They are fields of a `Common.Externals` value passed in. So every property holds whatever those helpers return. Where a property needs the parsers' documented tolerance of a missing value (`None` in, `None` out), the lemma requires `ext.Tolerant()`.

A guarded write `x = parse(data.get(K)); if x is not None: self.f = x` is the function `DeviceSpec.OverwriteOpt` (or `Overwrite` for a non-optional field). In the level stages (`ApplyFineParticles`, `ApplyPm10AndCo2`, `ApplyTvocAndHumidity`), and for the ventilation flag and firmware in `ApplyStages`, that function is the value assigned to the field.

## Model

| member | source | states |
|---|---|---|
| DeviceSpec.InitialState | aioairzone_cloud/device.py:78-112 | The constructor leaves the webserver connected, the name "Device", every list empty, every mode and flag unset and all air-quality readings unset. The device is connected unless the payload's connection flag parses to false. |
| Entities.Device.constructor | aioairzone_cloud/device.py:78-112 | The new device's state is `InitialState` of the payload. The id is `str` of the payload's device id, and no air-quality device is linked. |
| DeviceSpec.SubData | aioairzone_cloud/device.py:114-126 | Returns the meta block if it contains the system-number key, else the config block if it does, else the top-level mapping. It is undefined exactly where Python's `in` raises on a truthy bool or number. |
| Entities.Device.Reported | aioairzone_cloud/device.py:218-291 | With an air-quality device linked, the eleven readings are that device's fields whatever the local fields hold. Without one, they are the local fields. |
| Entities.Device.GetAvailable | aioairzone_cloud/device.py:293-295 | Available exactly when both the device and its webserver are connected. |
| Entities.Device.GetDoubleSetPoint | aioairzone_cloud/device.py:297-301 | True exactly when the flag is set and true: an unset flag reads as false. |
| Entities.Device.GetModes | aioairzone_cloud/device.py:331-335 | The available modes, or nothing exactly when the list is empty. |
| Entities.Device.GetProblems | aioairzone_cloud/device.py:341-343 | A problem is reported exactly when an error or a warning is recorded. |
| Entities.Device.GetDualSpConf | aioairzone_cloud/device.py:303-305 | Returns the dual set-point flag, as `State()` holds it. |
| Entities.Device.GetErrors | aioairzone_cloud/device.py:307-309 | Returns the recorded errors, as `State()` holds it. |
| Entities.Device.GetId | aioairzone_cloud/device.py:311-313 | Returns the device id, as `Ids()` holds it. |
| Entities.Device.GetInstallation | aioairzone_cloud/device.py:315-317 | Returns the installation id, as `Ids()` holds it. |
| Entities.Device.GetIsConnected | aioairzone_cloud/device.py:319-321 | Returns the connection flag, as `State()` holds it. |
| Entities.Device.GetMode | aioairzone_cloud/device.py:323-325 | Returns the current mode, as `State()` holds it. |
| Entities.Device.GetModeAuto | aioairzone_cloud/device.py:327-329 | Returns the auto mode, as `State()` holds it. |
| Entities.Device.GetName | aioairzone_cloud/device.py:337-339 | Returns the name, as `State()` holds it. |
| Entities.Device.GetSimulatorMode | aioairzone_cloud/device.py:345-347 | Returns the simulator flag, as `State()` holds it. |
| Entities.Device.GetWarnings | aioairzone_cloud/device.py:349-351 | Returns the recorded warnings, as `State()` holds it. |
| Entities.Device.GetWebserver | aioairzone_cloud/device.py:353-355 | Returns the webserver id, as `Ids()` holds it. |
| Entities.Device.GetWsConnected | aioairzone_cloud/device.py:357-359 | Returns the webserver connection flag, as `State()` holds it. |
| Entities.AirQuality.GetAqSensorFw | aioairzone_cloud/air_quality.py:237-239 | Returns the sensor firmware, as `Extras()` holds it. |
| Entities.AirQuality.GetSystemNum | aioairzone_cloud/air_quality.py:241-243 | Returns the system number fixed at construction, as `Numbers()` holds it. |
| Entities.AirQuality.GetZoneNum | aioairzone_cloud/air_quality.py:245-247 | Returns the zone number fixed at construction, as `Numbers()` holds it. |
| Entities.Device.SetAirQuality | aioairzone_cloud/device.py:361-363 | After linking, the reported readings are those of the linked device. |
| DeviceSpec.GuardedMode | aioairzone_cloud/device.py:365-371 | Only the mode can change, and it raises `ValueError` exactly when the conversion fails. A converted mode is taken exactly when it is among the available modes. The guard preserves "the mode is one of the modes". |
| Entities.Device.SetMode | aioairzone_cloud/device.py:365-371 | The new state and the way the call ends are `GuardedMode` of the old state. The mode stays among the available modes. |
| DeviceSpec.MergeConnectivity | aioairzone_cloud/device.py:381-390 | Only the two connection flags and the active flag change. |
| Entities.Device.ApplyConnectivity | aioairzone_cloud/device.py:381-390 | The new state is `MergeConnectivity` of the old one. |
| Entities.Device.ApplyConnection | aioairzone_cloud/device.py:381-386 | Each connection flag is overwritten exactly when its value parses; nothing else changes. |
| DeviceSpec.MergeLevels | aioairzone_cloud/device.py:392-414 | Only the six integer levels change. |
| Entities.Device.ApplyLevels | aioairzone_cloud/device.py:392-414 | The new state is `MergeLevels` of the old one. |
| Entities.Device.ApplyFineParticles | aioairzone_cloud/device.py:392-398 | PM1 and PM2.5 are each overwritten exactly when their value parses; nothing else changes. |
| Entities.Device.ApplyPm10AndCo2 | aioairzone_cloud/device.py:400-406 | PM10 and CO2 are each overwritten exactly when their value parses; nothing else changes. |
| Entities.Device.ApplyTvocAndHumidity | aioairzone_cloud/device.py:408-414 | TVOC and humidity are each overwritten exactly when their value parses; nothing else changes. |
| DeviceSpec.MergeTemp | aioairzone_cloud/device.py:416-419 | Only the temperature changes. |
| Entities.Device.ApplyTemp | aioairzone_cloud/device.py:416-419 | The new state and the way the stage ends are `MergeTemp` of the old state. |
| DeviceSpec.MergeIndices | aioairzone_cloud/device.py:421-431 | Only presence, quality level and score change. |
| Entities.Device.ApplyIndices | aioairzone_cloud/device.py:421-431 | The new state is `MergeIndices` of the old one. |
| Entities.Device.ApplyQualityAndScore | aioairzone_cloud/device.py:425-431 | The quality level and the score are each overwritten exactly when their value parses; nothing else changes. |
| DeviceSpec.MergeAutoMode | aioairzone_cloud/device.py:433-435 | Only the auto mode changes. |
| Entities.Device.ApplyAutoMode | aioairzone_cloud/device.py:433-435 | The new state and the way the stage ends are `MergeAutoMode` of the old state. |
| DeviceSpec.MergeSetPoints | aioairzone_cloud/device.py:437-443 | Only the two set-point flags change. |
| Entities.Device.ApplySetPoints | aioairzone_cloud/device.py:437-443 | The new state is `MergeSetPoints` of the old one. |
| DeviceSpec.MergeErrors | aioairzone_cloud/device.py:445-449 | Only the error list changes. |
| Entities.Device.ApplyErrors | aioairzone_cloud/device.py:445-449 | The loop that empties and refills the list leaves `MergeErrors` of the old state. |
| DeviceSpec.ConvertModes | aioairzone_cloud/device.py:456-458 | Converting a list of raw modes succeeds exactly when every element converts. The result has the same length, and each element is the conversion of the raw element at the same position. |
| DeviceSpec.MergeModes | aioairzone_cloud/device.py:451-459 | Only the mode and the available modes change. |
| Entities.Device.ApplyModes | aioairzone_cloud/device.py:451-459 | The mode write, then the conversion loop into a fresh list, leave `MergeModes` of the old state, including where a conversion raises. |
| DeviceSpec.MergeSimulator | aioairzone_cloud/device.py:461-463 | Only the simulator flag changes. |
| Entities.Device.ApplySimulator | aioairzone_cloud/device.py:461-463 | The new state is `MergeSimulator` of the old one. |
| DeviceSpec.MergeWarnings | aioairzone_cloud/device.py:465-469 | Only the warning list changes. |
| Entities.Device.ApplyWarnings | aioairzone_cloud/device.py:465-469 | The loop that empties and refills the list leaves `MergeWarnings` of the old state. |
| Entities.Device.UpdateData | aioairzone_cloud/device.py:377-469 | The new state and the way the call ends are `Merge` of the old state and the update. A raise keeps the writes of the earlier stages. |
| DeviceSpec.MergeTailKeepsReadings | aioairzone_cloud/device.py:421-469 | The stages after the temperature never touch the connection flags, the active flag, the six levels or the name. |
| DeviceSpec.MergeGuardedFields | aioairzone_cloud/device.py:381-463 | Each parser-guarded field is overwritten exactly when its parse succeeds, and is otherwise unchanged. This holds for the nine fields before the first raise site in every case, and for the other guarded fields whenever the update runs to its end. The name never changes. |
| DeviceSpec.MergeTemperature | aioairzone_cloud/device.py:416-419 | A present temperature object overwrites the temperature with the parse of its Celsius entry, even when that is `None`. An absent one keeps it. Any other value raises `AttributeError`, after the nine earlier fields were written and before anything later was. |
| DeviceSpec.MergeLists | aioairzone_cloud/device.py:445-469 | A present error value replaces the list by its elements in order, also when empty, when the update gets past the errors; a present warning value does so when the update completes. An absent one keeps the old list whatever happens. |
| DeviceSpec.MergeErrorsNotIterable | aioairzone_cloud/device.py:445-449 | When the auto-mode stage completes, an error value that cannot be iterated raises `TypeError` after the list was emptied, and the warnings are untouched. |
| DeviceSpec.MergeAutoModeValue | aioairzone_cloud/device.py:433-435 | An absent auto mode keeps the old one; a present one that converts is stored when the temperature stage completes. |
| DeviceSpec.MergeAutoModeRaises | aioairzone_cloud/device.py:433-435 | When the temperature stage completes, an auto mode that does not convert raises `ValueError`, leaving the state after the indices: the auto mode, set points, lists, modes and simulator flag are the old ones. |
| DeviceSpec.MergeModesRaise | aioairzone_cloud/device.py:451-459 | When the errors stage completes: an unconvertible mode raises `ValueError` with mode and modes unchanged; otherwise the mode is written, and a non-iterable (`TypeError`), unordered or unconvertible (`ValueError`) list of available modes raises with the old modes kept and the simulator flag and warnings untouched. |
| DeviceSpec.MergeModeList | aioairzone_cloud/device.py:454-459 | When the modes stage completes, a present, non-empty list is the converted available modes, in order. An absent or empty list keeps them whatever happens. |
| DeviceSpec.MergeModeUnguarded | aioairzone_cloud/device.py:451-453 | When the errors stage completes, the converted raw mode is stored with no test against the available modes, whatever the list of available modes does next. |
| DeviceSpec.MergeCanBreakModeInModes | aioairzone_cloud/device.py:451-459 | An update that carries only a mode outside the available modes completes and leaves that mode. So the merge breaks the invariant that `set_mode` preserves. |
| DeviceSpec.MergeIgnoresAbsentKeys | aioairzone_cloud/device.py:377-469 | An update that has none of the merged keys changes nothing and completes. |
| DeviceSpec.MergeIdempotent | aioairzone_cloud/device.py:377-469 | Applying the same update twice gives the state and the ending of applying it once, also when it raised. |
| AirQualitySpec.SystemAndZone | aioairzone_cloud/air_quality.py:80-82 | The numbers are found exactly when the sub-mapping is an object holding both keys and both values convert with `int()`. They are then those conversions. |
| AirQualitySpec.AirQualityName | aioairzone_cloud/air_quality.py:84-88 | The name is the parsed payload name when there is one. Otherwise it is "Air Quality " followed by the system number, a colon and the zone number. |
| AirQualitySpec.IntToStringRoundTrip | aioairzone_cloud/air_quality.py:88 | The decimal formatting of an integer, as the f-string writes it, reads back to the integer. |
| AirQualitySpec.AirQualityNameFallback | aioairzone_cloud/air_quality.py:84-88 | The fallback name splits at the colon into the system number and the zone number, which read back exactly. |
| AirQualitySpec.MetaPayloadExample | aioairzone_cloud/air_quality.py:59-88 | A payload with a meta block holding "1" and "2" and no name gives system 1, zone 2 and the name "Air Quality 1:2". |
| Entities.AirQuality.constructor | aioairzone_cloud/air_quality.py:59-88 | The device part is the initial device state with the air-quality name. The system and zone numbers are those `SystemAndZone` finds. The extra fields are unset and no systems or zones are registered. |
| Entities.AirQuality.ExtraReadings | aioairzone_cloud/air_quality.py:153-211 | The ventilation flag and the pressure are the linked air-quality device's when one is set, and the local fields otherwise. |
| AirQualitySpec.AddAbsent | aioairzone_cloud/air_quality.py:225-235 | Registering under an id keeps every existing entry. An entry is added only under an absent id. |
| AirQualitySpec.AddAbsentIdempotent | aioairzone_cloud/air_quality.py:225-235 | A second registration under the same id, of any entry, changes nothing. |
| Entities.AirQuality.AddSystem | aioairzone_cloud/air_quality.py:225-229 | The systems map becomes `AddAbsent` of the old one. |
| Entities.AirQuality.AddZone | aioairzone_cloud/air_quality.py:231-235 | The zones map becomes `AddAbsent` of the old one. |
| Entities.AirQuality.SetParam | aioairzone_cloud/air_quality.py:249-250 | Nothing changes. |
| AirQualitySpec.AirQualityMergeBase | aioairzone_cloud/air_quality.py:252-309 | Running the air-quality keys again after the device merge changes no device field and never raises. The device state and the ending are those of the device merge. |
| AirQualitySpec.AirQualityMergeExtras | aioairzone_cloud/air_quality.py:256-309 | When the update completes, the ventilation flag and the firmware follow the guarded-write rule, and a present pressure is stored unparsed. When the device merge raised, the extra fields are unchanged. |
| AirQualitySpec.AirQualityMergeIdempotent | aioairzone_cloud/air_quality.py:252-309 | Applying the same update twice to an air-quality device gives the state, extras and ending of applying it once. |
| Entities.AirQuality.ApplyStages | aioairzone_cloud/air_quality.py:256-309 | The device part, the extra fields and the ending are `MergeAirQualityStages` of the old ones. |
| Entities.AirQuality.UpdateData | aioairzone_cloud/air_quality.py:252-309 | The device part, the extra fields and the ending are `MergeAirQuality` of the old ones. The system and zone registrations and the link are unchanged. |
| Snapshot.DeviceEntry | aioairzone_cloud/device.py:128-216 | Only keys of a plain device ever have an entry. |
| Snapshot.BuildAt | aioairzone_cloud/device.py:142-214 | After a run of insertions, a key holds the last insertion there that stored something, or else what it held before. |
| Snapshot.RunLookup | aioairzone_cloud/device.py:142-214 | A run that inserts each key with that key's own entry leaves every key it inserts with that entry, and no entry on any other key. |
| Snapshot.DeviceRunLookup | aioairzone_cloud/device.py:142-214 | The device's insertions leave each of their eighteen keys with its own entry, and no entry on any other key. |
| Snapshot.DeviceFixedKeys | aioairzone_cloud/device.py:130-140 | The fixed part of the snapshot stores exactly its nine keys. |
| Snapshot.DeviceFixedAt | aioairzone_cloud/device.py:130-140 | The fixed part holds exactly the entries of the keys that are not inserted one by one, with those entries. |
| Snapshot.DeviceOutputAt | aioairzone_cloud/device.py:128-216 | A key is in the device snapshot exactly when its entry exists, and it carries that entry. |
| Snapshot.DeviceOutputSteps | aioairzone_cloud/device.py:128-216 | The device snapshot is the nine fixed keys followed by the eighteen guarded insertions, in the order of the code. |
| Snapshot.DeviceOutputAlways | aioairzone_cloud/device.py:130-140 | The nine unconditional keys are always present, with the accessors' values. |
| Snapshot.DeviceOutputReadings | aioairzone_cloud/device.py:142-186 | Each of the ten reading keys is present exactly when its accessor has a value, and carries that value (a bool, string, integer or real as the reading is). |
| Snapshot.DeviceOutputSettings | aioairzone_cloud/device.py:188-214 | Each setting key is present exactly when its accessor has a value. Errors, warnings and the available modes are present exactly when non-empty, and carry the whole list. |
| Snapshot.DeviceOutputQuality | aioairzone_cloud/device.py:146-150 | The quality key is present exactly when the level is a key of the level table, and it carries the table's value. |
| Snapshot.DeviceOutputKeys | aioairzone_cloud/device.py:128-216 | A plain device's snapshot has none of the keys only an air-quality device emits. |
| Snapshot.InsertQualityLevel | aioairzone_cloud/device.py:146-150 | The loop over the level table stores the table's value for a known level, and leaves the map unchanged for an unknown one. |
| Entities.Device.Data | aioairzone_cloud/device.py:128-216 | The map built insertion by insertion is `DeviceOutput` of the state, the reported readings and the identifiers. |
| Snapshot.AirQualityEntryOf | aioairzone_cloud/air_quality.py:90-151 | On a plain device's keys, an air-quality device reports what a device reports. Every other key is one it inserts itself. |
| Snapshot.AirQualityRunLookup | aioairzone_cloud/air_quality.py:94-149 | The air-quality insertions leave each of their fifteen keys with its own entry, and no entry on any other key. |
| Snapshot.AirQualityOutputAt | aioairzone_cloud/air_quality.py:90-151 | A key is in the air-quality snapshot exactly when its entry exists, and it carries that entry. |
| Snapshot.AirQualityOutputSteps | aioairzone_cloud/air_quality.py:90-151 | The air-quality snapshot is the device snapshot followed by the fifteen insertions, in the order of the code. |
| Snapshot.AirQualityOutputExtras | aioairzone_cloud/air_quality.py:136-149 | The system and zone keys are always present. The ventilation flag, the raw pressure and the firmware are present exactly when set. |
| Snapshot.AirQualityOutputExtendsDevice | aioairzone_cloud/air_quality.py:90-151 | On every key a plain device can emit, the air-quality snapshot agrees with the device snapshot. Insertions only add or restore entries, and never remove one. |
| Entities.AirQuality.Data | aioairzone_cloud/air_quality.py:90-151 | The map built on top of the device snapshot is `AirQualityOutput` of the state. |

## Left out

- `Device.get_aq_status` (device.py:230-237) calls itself unconditionally and names an undefined key constant, so it has no behaviour to model.
- Logging of a rejected mode in `set_mode` (device.py:371) is an output with no effect on state, so it is left out.
- The abstract `Device.set_param` (device.py:373-375) has no body to model.
- `AirQuality`'s overrides of `get_aq_quality` … `get_aq_present` (air_quality.py:159-223, except the pressure getter) are the same as `Device`'s. The model reads them through the device part.
- Inheritance is modelled by composition.
  - An `AirQuality` holds its device part as `base`, and the inherited fields live there.
  - `AirQuality.__init__` sets the inherited readings to `None` again (air_quality.py:68-78); the model does not repeat this, because they are already unset.
- `common.py`, `const.py`, `entity.py`, `system.py` and `zone.py` are not part of this model.
  - The parsers, `OperationMode`, `int()`, `str()` and the quality-level table are parameters.
  - The `API_*` key strings are stand-in values, all distinct.
  - The `EntityUpdate` envelope is its data mapping.
  - A `System` or `Zone` is only its id.
- Iterating a non-empty JSON object, which Python does over its keys in insertion order, is modelled as the raise `UnorderedIteration`, because the model's maps keep no order. Such a value for the errors, the warnings or the available modes cannot be followed further.
- Entities.Device.Data: the returned snapshot is a map, so the insertion order of the Python dict is not kept. The order of the insertions is modelled by `Snapshot.DeviceOutputSteps`.
- The constructors' raises (a missing device id; system or zone numbers that cannot be found or converted) are preconditions. These are construction failures, not partial states.
- Floating-point values (the temperature, the pressure) are `real` or the raw JSON value. No arithmetic is done on them.
- `aq_score` is declared `int` but is parsed with `parse_str`. The model follows the code and keeps it as a string.
- Concurrent readers and writers are left out, as are the weak-reference semantics of the links. The links are plain references.

What `update_data` does, and the model with it:

- it can raise part-way (a non-object temperature, an unconvertible mode or auto mode, a non-iterable list), and the writes made before the raise are kept;
- it writes `None` for the temperature when its object has no Celsius entry;
- an empty list of available modes keeps the old modes;
- it writes the current mode without the membership test of `set_mode`.
