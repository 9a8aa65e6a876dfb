# SignalK-Orientation in Dafny

A model of the original logic in SignalK-Orientation, a firmware adapter that reads a
9-axis orientation sensor through an external sensor-fusion engine and publishes the
results as Signal K data. The model covers two pieces.

1. **The Signal K output transforms** (`src/signalk_output.h`): `SKOutput<T>`,
   `SKOutput<Attitude>` (`SKOutputAttitude`) and `SKOutput<MagCal>` (`SKOutputMagCal`).
   Each keeps the last value it received, a configurable Signal K path and a metadata
   reference, and renders the update `{"path": ..., "value": ...}`. If a reading is
   invalid, the affected members are sent as JSON nulls, never as 0 or "". An invalid
   Attitude nulls all three angles. An invalid MagCal nulls the four members that come
   from current readings (`incl`, `ferrt`, `bmagt`, `noise`) and keeps the three that
   come from the stored calibration (`ferr`, `bmag`, `solver`). `as_signalk` is modelled
   as a function that returns a JSON tree (`Json.Json`). The three classes hold the
   state their methods update in place: `skPath`, `output` and `meta`.
2. **The orientation adapter** (`src/orientation_sensor.cpp`).
   - The `OrientationSensor` constructor runs the short-circuit chain: IO init, then
     install magnetometer, accelerometer, thermometer and gyroscope. `Begin` runs only
     when all five calls succeed.
   - `OrientationValues::ReportValue` first sends the one-shot calibration command:
     "SVMC" when the flag is 1, "ERMC" when it is -1; the flag is then reset to 0.
     It then looks up the getter for the configured value type. For heading and yaw it
     also advances the log-throttle counter, and writes a log line when that counter
     is a multiple of 50.

The fusion engine is external, so `SensorFusionEngine.SensorFusion` models only what
can be seen from outside:
- the hardware's answers to the setup calls, as a `Hardware` value fixed when the
  engine is created;
- the current readings, as a field of type `Getter -> real`. Every engine call except
  a getter may change them in any way: the setup calls, `ReadSensors`, `RunFusion` and
  `InjectCommand`. A getter returns the current reading and leaves the readings as
  they were, so two reports with no fusion step or command between them return the
  same value;
- a ghost trace of every call made to it, in order.

Float payloads are `real` values that are only copied. Pins and I2C addresses are
`uint8`. The calibration flag is `int8`.

Files: `wrappers.dfy` (Option), `json.dfy` (the JSON tree, and `as<String>()`),
`signalk_orientation.dfy` (the `Attitude` and `MagCal` structs),
`signalk_output.dfy`, `sensor_fusion.dfy`, `orientation_sensor.dfy`.

The header and the .cpp disagree in three places, and the model follows the .cpp:
- The header declares the `OrientationValues` constructor with a third parameter,
  `report_interval_ms` (src/orientation_sensor.h:139-141). The definition takes only
  the sensor and the value type (src/orientation_sensor.cpp:111-112).
- `GetFusionRateHz` is defined in the .cpp but not declared in the header.
- The header declares `ReadAndProcessSensors` private (src/orientation_sensor.h:41-42).
  But the constructor's comment relies on the main program to call it at the fusion rate
  (src/orientation_sensor.cpp:59-60). In the files shown, nothing calls it, so no code
  refreshes the engine's readings. The model makes it a public method.

## Model

| member | source | states |
|---|---|---|
| `Json.AsString` | src/signalk_output.h:85 | `as<String>()` on a string value gives that same string; for other values the library's rendering is a parameter |
| `SignalKOutput.Envelope` | src/signalk_output.h:63-66 | the document has exactly the keys "path" and "value": "path" is the given path as a string, "value" the given value |
| `SignalKOutput.EnvelopeRoundTrip` | src/signalk_output.h:65-66 | the path and the value can be read back from the document unchanged |
| `SignalKOutput.GenericDocument` | src/signalk_output.h:59-73 | generic `as_signalk`: an envelope of the current path and the stored output as the JSON library converts it |
| `SignalKOutput.AttitudeValue` | src/signalk_output.h:154-169 | the `value` object of an Attitude always has exactly the keys yaw, pitch, roll |
| `SignalKOutput.AttitudeDocument` | src/signalk_output.h:149-177 | Attitude `as_signalk`: an envelope of the current path and the Attitude's `value` object |
| `SignalKOutput.AttitudeValidCopiesAngles` | src/signalk_output.h:155-158 | a valid Attitude sends yaw, pitch and roll, each copied from the struct |
| `SignalKOutput.AttitudeInvalidAllNull` | src/signalk_output.h:159-168 | an invalid Attitude sends all three keys, each a JSON null; none is left out or sent as a number |
| `SignalKOutput.AttitudeKeysIndependentOfValidity` | src/signalk_output.h:155-169 | the key set is the same three keys whether or not the reading is valid |
| `SignalKOutput.AttitudeValueFaithful` | src/signalk_output.h:155-169 | two Attitudes give equal `value` objects if and only if they have the same validity and, when valid, the same three angles |
| `SignalKOutput.MagCalValue` | src/signalk_output.h:268-292 | the `value` object of a MagCal always has exactly the seven keys incl, ferr, ferrt, bmag, bmagt, noise, solver |
| `SignalKOutput.MagCalDocument` | src/signalk_output.h:263-300 | MagCal `as_signalk`: an envelope of the current path and the MagCal's `value` object |
| `SignalKOutput.MagCalValidCopiesFields` | src/signalk_output.h:269-276 | a valid MagCal maps incl, ferr, ferrt, bmag, bmagt, noise and solver to their struct fields |
| `SignalKOutput.MagCalInvalidNullsReadings` | src/signalk_output.h:277-292 | when invalid, a key is null exactly when it is not one of ferr, bmag, solver; those three keep their struct values |
| `SignalKOutput.MagCalStoredIndependentOfValidity` | src/signalk_output.h:269-292 | ferr, bmag and solver are sent the same way whatever the validity flag |
| `SignalKOutput.MagCalKeysIndependentOfValidity` | src/signalk_output.h:269-292 | the key set is the same seven keys whether or not the reading is valid |
| `SignalKOutput.MagCalValueFaithful` | src/signalk_output.h:269-292 | two MagCals give equal `value` objects if and only if they have the same validity, ferr, bmag and solver, and, when valid, the same other four fields |
| `SignalKOutput.WriteConfiguration` | src/signalk_output.h:75-77 | `get_configuration` sets "sk_path" to the current path and keeps every other key of the object |
| `SignalKOutput.ApplyConfiguration` | src/signalk_output.h:81-87 | a config is accepted if and only if it has "sk_path"; a refused one leaves the path unchanged, an accepted one sets the path to that value's string |
| `SignalKOutput.ConfigurationRoundTrip` | src/signalk_output.h:75-87 | a configuration written by `get_configuration` is accepted by `set_configuration` and restores the same path |
| `SignalKOutput.ApplyConfigurationIdempotent` | src/signalk_output.h:81-87 | applying the same configuration a second time changes nothing |
| `SignalKOutput.SKOutput.constructor` | src/signalk_output.h:44-48 | stores the given path and metadata reference |
| `SignalKOutput.SKOutput.SetInput` | src/signalk_output.h:55-57 | the stored output becomes the new value, unchanged; path and metadata are untouched |
| `SignalKOutput.SKOutput.AsSignalK` | src/signalk_output.h:59-73 | the document's "path" is the current `skPath` and its "value" is the stored output, converted |
| `SignalKOutput.SKOutput.GetConfiguration` | src/signalk_output.h:75-77 | writes the current `skPath` under "sk_path" and keeps every other key |
| `SignalKOutput.SKOutput.SetConfiguration` | src/signalk_output.h:81-87 | returns false and keeps `skPath` when "sk_path" is missing; otherwise sets `skPath` and returns true |
| `SignalKOutput.SKOutput.SetMetadata` | src/signalk_output.h:95 | the metadata reference becomes the given one, which may be null |
| `SignalKOutput.SKOutput.GetMetadata` | src/signalk_output.h:97 | returns the stored metadata reference |
| `SignalKOutput.SKOutputAttitude.constructor` | src/signalk_output.h:130-136 | stores the given path and metadata reference |
| `SignalKOutput.SKOutputAttitude.SetInput` | src/signalk_output.h:142-145 | the stored Attitude becomes the new value, unchanged |
| `SignalKOutput.SKOutputAttitude.AsSignalK` | src/signalk_output.h:149-177 | "path" is the current `skPath` and "value" is the Attitude object of the stored output |
| `SignalKOutput.SKOutputAttitude.GetConfiguration` | src/signalk_output.h:179-181 | writes the current `skPath` under "sk_path" and keeps every other key |
| `SignalKOutput.SKOutputAttitude.SetConfiguration` | src/signalk_output.h:185-191 | returns false and keeps `skPath` when "sk_path" is missing; otherwise sets `skPath` and returns true |
| `SignalKOutput.SKOutputAttitude.SetMetadata` | src/signalk_output.h:201 | the metadata reference becomes the given one |
| `SignalKOutput.SKOutputAttitude.GetMetadata` | src/signalk_output.h:203 | returns the stored metadata reference |
| `SignalKOutput.SKOutputMagCal.constructor` | src/signalk_output.h:243-249 | stores the given path and metadata reference |
| `SignalKOutput.SKOutputMagCal.SetInput` | src/signalk_output.h:255-258 | the stored MagCal becomes the new value, unchanged |
| `SignalKOutput.SKOutputMagCal.AsSignalK` | src/signalk_output.h:263-300 | "path" is the current `skPath` and "value" is the MagCal object of the stored output |
| `SignalKOutput.SKOutputMagCal.GetConfiguration` | src/signalk_output.h:302-304 | writes the current `skPath` under "sk_path" and keeps every other key |
| `SignalKOutput.SKOutputMagCal.SetConfiguration` | src/signalk_output.h:308-314 | returns false and keeps `skPath` when "sk_path" is missing; otherwise sets `skPath` and returns true |
| `SignalKOutput.SKOutputMagCal.SetMetadata` | src/signalk_output.h:324 | the metadata reference becomes the given one |
| `SignalKOutput.SKOutputMagCal.GetMetadata` | src/signalk_output.h:326 | returns the stored metadata reference |
| `Orientation.SetupSteps` | src/orientation_sensor.cpp:34-45 | IO init, then the magnetometer, accelerometer and thermometer installed at `accel_mag_i2c_addr`, then the gyroscope at `gyro_i2c_addr`, in that order |
| `Orientation.ShortCircuit` | src/orientation_sensor.cpp:34-45 | the calls a `&&` chain makes: never more than its steps, and always the first step when there is one |
| `Orientation.InitTrace` | src/orientation_sensor.cpp:34-51 | the constructor's engine calls: one to six calls, IO init always first (fully characterised by `InitSequence`) |
| `Orientation.ShortCircuitStopsAtFirstFailure` | src/orientation_sensor.cpp:34-45 | a `&&` chain issues a prefix of its steps; every step before the last one issued succeeded; all steps are issued when all succeed; otherwise the last one issued is a failure |
| `Orientation.ShortCircuitFive` | src/orientation_sensor.cpp:34-45 | the five-step chain stops right after its first failing step |
| `Orientation.SetupSucceedsIff` | src/orientation_sensor.cpp:34-45 | `success` holds if and only if IO init and all four installs succeed |
| `Orientation.InitSequence` | src/orientation_sensor.cpp:34-51 | IO init always runs first; then magnetometer, accelerometer, thermometer and gyroscope are installed in that order; the chain stops at the first failure; `Begin` is called if and only if every step succeeded |
| `Orientation.OrientationSensor.constructor` | src/orientation_sensor.cpp:27-67 | creates a fresh engine whose call trace is exactly the setup chain described by `InitSequence` |
| `Orientation.OrientationSensor.ReadAndProcessSensors` | src/orientation_sensor.cpp:80-84 | reads the sensors and then runs the fusion, in that order |
| `Orientation.GetterFor` | src/orientation_sensor.cpp:134-195 | the switch over the value type: no getter exactly for kAttitude; the heading getter exactly for kCompassHeading and kYaw |
| `Orientation.CommandFor` | src/orientation_sensor.cpp:124-128 | "SVMC" if and only if the flag is 1; "ERMC" if and only if it is -1; a command exactly when the flag is 1 or -1 |
| `Orientation.ReportCalls` | src/orientation_sensor.cpp:124-137 | the engine calls of one report: one command call when a command is due, plus one getter call when the type has a getter, and nothing else |
| `Orientation.ReportedValue` | src/orientation_sensor.cpp:132-196 | the value a report returns: 0.0 for kAttitude; the heading reading for kCompassHeading and kYaw |
| `Orientation.DispatchTable` | src/orientation_sensor.cpp:134-195 | a type reads a getter if and only if it is in that getter's row of the table; heading and yaw share HeadingRadians; only kAttitude reads nothing |
| `Orientation.ReportCallsOrder` | src/orientation_sensor.cpp:124-137 | "SVMC" is sent if and only if the flag is 1; "ERMC" if and only if it is -1; a command is sent exactly when the flag is 1 or -1; at most one is sent, and only as the first call; the getter call is always last |
| `Orientation.ReportedValueTable` | src/orientation_sensor.cpp:132-196 | heading and yaw return the heading reading; every other type returns its own getter's reading; kAttitude returns 0.0 |
| `Orientation.LinesLoggedEveryFifty` | src/orientation_sensor.cpp:138-141 | after n heading reports, n / 50 log lines have been written |
| `Orientation.OrientationValues.constructor` | src/orientation_sensor.cpp:111-121 | stores the sensor and the value type, and sets the throttle counter and the calibration flag to 0 |
| `Orientation.OrientationValues.LoggedEveryFifty` | src/orientation_sensor.cpp:138-141 | one log line has been written for every 50 heading reports |
| `Orientation.OrientationValues.ReportValue` | src/orientation_sensor.cpp:122-197 | afterwards the flag is 0 whatever it was; the engine sees the pending command, if any, and then the getter call; the result is the selected reading, or 0.0; the throttle counter rises by 1 exactly for heading and yaw; a log line is added exactly when the new count is a multiple of 50; with no command pending, the engine's readings are unchanged |
| `Orientation.OrientationValues.FetchValue` | src/orientation_sensor.cpp:132-196 | the switch: one getter call, or none for kAttitude; the result is that reading, else 0.0; the throttle and log are updated for heading and yaw; the engine's readings are unchanged |
| `Orientation.OrientationValues.ReadGetter` | src/orientation_sensor.cpp:143-194 | the switch cases other than heading and yaw: one getter call, or none for kAttitude; the result is that reading, else 0.0; the readings are unchanged |

## Left out

- The fusion engine's own behaviour: sensor reads, fusion, what `InjectCommand` does to the calibration, saving the calibration. These are foreign calls. The engine is shown only through its answers and a call trace.
- ArduinoJson internals. The model leaves out the `DynamicJsonDocument` capacities, the `overflowed()` check and its error log, the dropping of trailing members when the document is too small, and the `serializeJson` text. The model builds the JSON tree only.
- `Json.AsString`: for values that are not strings, ArduinoJson's `as<String>()` is a library detail. It is a parameter of the model.
- The three `SKOutput` constructors end in one model constructor. The model leaves out their calls to `Enable::set_priority` and `load_configuration`, the `config_path` argument and `get_config_schema` (a constant schema string). All of these belong to the framework.
- SKOutput.constructor: the model leaves out `load_configuration` (src/signalk_output.h:47). With a non-empty `config_path` and a saved configuration, the source loads that configuration through `set_configuration`, and it can replace the given `sk_path`. So "stores the given path" holds only when no configuration is saved. In the example programs, every output this header defines gets an empty config path, so there the given path is kept. Loading a saved configuration is the same step as `SetConfiguration`.
- SKOutputAttitude.constructor: the model leaves out `load_configuration` (src/signalk_output.h:135). With a non-empty `config_path` and a saved configuration, the source loads that configuration through `set_configuration`, and it can replace the given `sk_path`. So "stores the given path" holds only when no configuration is saved. In the example programs, every output this header defines gets an empty config path, so there the given path is kept. Loading a saved configuration is the same step as `SetConfiguration`.
- SKOutputMagCal.constructor: the model leaves out `load_configuration` (src/signalk_output.h:248). With a non-empty `config_path` and a saved configuration, the source loads that configuration through `set_configuration`, and it can replace the given `sk_path`. So "stores the given path" holds only when no configuration is saved. In the example programs, every output this header defines gets an empty config path, so there the given path is kept. Loading a saved configuration is the same step as `SetConfiguration`.
- SKOutput.constructor: the source never sets `output` before the first `set_input`; its value is whatever the default initialisation of `ValueProducer<T>` leaves. The model takes that initial value as a parameter.
- SKOutput.SetInput: `emit` also notifies the framework's observers, which the model leaves out. The unused `input_channel` argument is dropped.
- `SKOutputNumeric`: it has only a declared constructor and no body in these files.
- `AttitudeValues::Update` and `MagCalValues::Update`: they are declared without bodies in these files, so there is nothing to model.
- `GetFusionRateHz`: it returns the build constant `FUSION_HZ`, which is not part of this model.
- Logging: `ESP_LOGI`/`ESP_LOGE` are side effects. Only the heading values that reach the throttled log line are kept, as the ghost sequence `logged`.
- Orientation.OrientationValues.ReportValue: the throttle counter is a C++ `int`. Incrementing it past 2^31-1 is undefined behaviour. The model uses an unbounded `nat`.
- Orientation.OrientationValues.ReportValue: C++ can cast an out-of-range integer to the enum and send it to the `default` branch. A Dafny datatype cannot hold such a value, so only kAttitude reaches that branch here.
- The calibration flag `save_mag_cal_`: no code in these files sets it to anything but 0, because its configuration hooks are commented out. In the model it is a plain writable field, so the 1 and -1 paths can be reached.
- Null pointers: `orientation_sensor_` and `sensor_interface_` are assumed non-null (the model uses non-null references).
- Floats are `real` values that are only copied. The int result of `GetMagneticCalSolver` is treated as a reading like the others.
- The example programs: hardware pins and pipeline wiring built with the framework.
