# Stardust sensor logger — a verified model of its sensor, record, fault and config logic

The Stardust firmware reads a set of environmental sensors on an Arduino each cycle and
writes one comma-separated record line per cycle to an SD card. The sensors are a BMP388
barometer, two battery voltage channels, DS18B20 and DHT22 thermometers, a u-blox GNSS
receiver, an SCD30 CO2 sensor and a VEML6075 UV sensor. Several of them sit behind an
I2C multiplexer. This project models the firmware's own logic underneath the hardware
library calls:

- **The sensor objects** (`CMySensor` and its variants). Each is a Dafny class. The base
  fields live in `Sensor.SensorBase`, which every variant holds as `base`. `InitSensor`
  and `ReadSensor` are methods. Whatever a hardware library would have returned (a
  begin flag, a reading, `dataReady`, `isValid`, the fix type, `millis()`) is a
  parameter. The device transactions (mux register accesses and calls that talk to a
  sensor's device) appear as entries in a ghost trace on `Io.Board`.
- **The record fields.** `GetHeader` and `GetLogLine` are functions. Their contracts
  state the split of the line into comma-separated fields and the width of each field.
  The header and the blank placeholder have the same layout. A data line has that layout
  exactly when each value fits its field: dtostrf's width is a minimum, not a maximum.
- **The multiplexer register** (`Mux`, and `EnableMuxPort`/`DisableMuxPort`). This is
  an 8-bit read-modify-write on `bv8`, with the no-mux sentinel, the clamp to port 7 and
  the "no byte came back" guard.
- **The heater thermostat** (`Heater`).
- **The bounded fault list** (`Faults`): `FlashStatusError` on an array of ten codes,
  `FlashErrors`' nested loops, and `DisplayError`'s mapping of codes to LED signals.
- **The configuration loader** (`Config`, with strtok, trim, toUpperCase, atol and atof
  in `Parse`). `LoadThisLine` and the line loop of `Init` are methods that are proved
  against a fold of per-line directives.
- **Number formatting** (`Format`): dtostrf and ltoa as avr-libc defines them, over
  exact reals. `Record` holds comma-separated joining and splitting.

Logging goes to `Io.Logger`, whose ghost `lines` record every message in order.

## Model

| member | source | states |
|---|---|---|
| Sensor.SensorBase.constructor | MySensor.cpp:18-26 | a new sensor has Value 0, an empty ErrMsg, is available, and keeps name, pin and mux port as given |
| Sensor.SensorBase.GetHeader | MySensor.cpp:28-31 | the header is the sensor's name, which is one record field when the name holds no comma |
| Sensor.SensorBase.GetLogLine | MySensor.cpp:33-44 | exactly eight blanks when ErrMsg is set or the sensor is out of use; otherwise the value to two decimals right-aligned behind blanks, comma-free, at least eight long and exactly eight iff the value fits |
| Sensor.SensorBase.FailSensor | MySensor.cpp:62-75 | the code is reported to the fault list, the message "<name> Failure: <ErrMsg>" (cut to the 80-byte buffer) is logged, and the sensor ends out of use with ErrMsg cleared; Value is untouched |
| Sensor.FailureMessage | MySensor.cpp:65-69 | the report is the prefix of name + " Failure: " + ErrMsg that fits in 79 characters: all of it when it is shorter, exactly 79 characters otherwise |
| Sensor.SensorBase.EnableMuxPort | MySensor.cpp:80-98 | NO_MUX makes no transaction; a port above 7 acts on port 7; a mux that gives no byte back is left as it was; otherwise the port's bit is set |
| Sensor.SensorBase.DisableMuxPort | MySensor.cpp:101-119 | the same guards; otherwise the port's bit is cleared |
| Sensor.BracketRestoresRegister | MySensor.cpp:93-114 | enable followed by disable leaves the other seven ports as they were and the sensor's port off; when that port was off before, the register is restored exactly |
| Sensor.EnableLeavesPortOn | StardustMaster_v2/CO2UV.cpp:24-29 | an enable with no matching disable, as on the CO2 and UV failure paths, leaves the sensor's port on |
| Sensor.ThreeValues | MySensor.cpp:190-196 | the three values to two decimals split back into three fields, and the line has the 8/8/8 layout iff each value fits |
| Sensor.Blank3Layout | MySensor.cpp:186 | the three-field placeholder is 26 characters, blank apart from its commas, in fields of 8/8/8 |
| Mux.ClampPort | MySensor.cpp:84 | ports above 7 become 7; ports 0..7 are unchanged |
| Mux.MaskIsShift | MySensor.cpp:93 | the port mask table equals 1 << p |
| Mux.EnablePort | MySensor.cpp:93 | settings OR (1 << p) turns port p on and leaves the other seven flags unchanged |
| Mux.DisablePort | MySensor.cpp:114 | settings & ~(1 << p) turns port p off and leaves the other seven flags unchanged |
| Mux.SetBit | MySensor.cpp:93 | bitwise: port q is on after the OR iff q == p or it was on before |
| Mux.ClearBit | MySensor.cpp:114 | bitwise: port q is on after the AND-NOT iff q != p and it was on before |
| Mux.Ports | MySensor.cpp:90-93 | the register read as eight port flags, port 0 first |
| Mux.PortsDetermine | MySensor.cpp:90-95 | the eight flags determine the register byte |
| Mux.DisableUndoesEnable | MySensor.cpp:93-114 | disabling a port that was off before it was enabled restores the register |
| Mux.EnableUndoesDisable | MySensor.cpp:93-114 | enabling a port that was on before it was disabled restores the register |
| Mux.EnableIdempotent | MySensor.cpp:93 | enabling twice is enabling once |
| Io.Board.RequestMux | MySensor.cpp:86-90 | the read of the mux register records one transaction and returns the byte and whether it came back, changing nothing |
| Io.Board.Transact | MySensor.cpp:131 | one library call to a device is one more trace entry; the mux is untouched |
| Io.Board.WriteMux | MySensor.cpp:95-96 | the register takes the written byte |
| Io.Logger.LogMsg | StardustMaster_v2/ErrorCodes.cpp:18 | one line is appended to the log |
| Bmp388.HeaderLayout | MySensor.cpp:177 | the header is 26 characters in three fields of eight |
| Bmp388.BMP388Sensor.constructor | MySensor.cpp:18-26 | base fields as for every sensor; altitude and temperature start at 0 |
| Bmp388.BMP388Sensor.InitSensor | MySensor.cpp:126-145 | a failed begin reports BMP388_NOT_FOUND and logs its message, then takes the sensor out of use directly, leaving ErrMsg as it was; the four configuration calls follow either way, inside one mux bracket |
| Bmp388.BMP388Sensor.Configure | MySensor.cpp:138-141 | four configuration calls to the barometer, with the mux untouched |
| Bmp388.BMP388Sensor.ReadSensor | MySensor.cpp:147-173 | out of use: true and no change at all; otherwise, inside a mux bracket, one reading and, after a good one, a second device access (readAltitude); on failure ErrMsg is name + " Failed to perform reading", Value is 0 and the result is false; on success Value is pressure/100, altitude and temperature are set and ErrMsg is empty |
| Bmp388.BMP388Sensor.GetHeader | MySensor.cpp:175-178 | the header has the 8/8/8 layout, 26 characters |
| Bmp388.BMP388Sensor.GetLogLine | MySensor.cpp:180-198 | blanks in the 8/8/8 layout on an error; otherwise pressure, altitude and temperature, each to two decimals, and the 8/8/8 layout iff each fits |
| Volt.AdcVolts | MySensor.cpp:216 | a 10-bit reading is rdg·5/1024, within 0..5 V |
| Volt.BatteryVolts | MySensor.cpp:216-221 | the reading is doubled exactly when the name is "   Volt9" |
| Volt.VoltSensor.constructor | MySensor.cpp:18-26 | base fields as for every sensor |
| Volt.VoltSensor.ReadSensor | MySensor.cpp:210-238 | always true; ErrMsg is cleared and Value is the battery voltage, whether or not the sensor is in use; availability is unchanged and there is no low-voltage branch |
| Heater.HeatsExactlyBelowLowLimit | MySensor.cpp:305-325 | the heater is on iff -273 < t < 4; the band 4..5 and anything at or below -273 switch it off; above 5 is the too-warm branch |
| Heater.HeaterControl.constructor | MySensor.cpp:290-292 | the zero-initialised global starts with heater, pin and LED off |
| Heater.HeaterControl.Init | MySensor.cpp:294-302 | heater off, pin low, LED off |
| Heater.HeaterControl.HeaterOnOff | MySensor.cpp:305-325 | HeaterOn is true iff -273 < t < HEATER_LOW_LIMIT, whatever the state before, and the pin and the LED follow it |
| Heater.HeaterExamples | SystemParameters.h:73-74 | -10 heats, 10 is too warm, 4.5 (the band), -273 and -300 switch off |
| Temperature.DS18BTempSensor.constructor | MySensor.cpp:18-26 | base fields as for every sensor; the sensor does not drive the heater |
| Temperature.DS18BTempSensor.InitSensor | StardustMaster_v2/TemperatureSensors.cpp:23-79 | UseForHeaterControl is cleared; with no device on the bus, FailSensor(DS18B_NOT_FOUND) runs with "No Devices found on DS18B bus" and the sensor ends out of use with ErrMsg empty; otherwise five set-up calls, ending with the first conversion |
| Temperature.DS18BTempSensor.ReadSensor | StardustMaster_v2/TemperatureSensors.cpp:91-109 | always true; out of use: no change; otherwise ErrMsg is cleared and Value is the device temperature; the thermostat is driven only when UseForHeaterControl is set, and then decides from that value |
| Temperature.DS18BTempSensor.GetHeader | StardustMaster_v2/TemperatureSensors.cpp:111-115 | the name, then "HeaterOn", as two fields |
| Temperature.DS18BTempSensor.GetLogLine | StardustMaster_v2/TemperatureSensors.cpp:117-141 | blanks in the 8/8 layout on an error; otherwise the temperature to two decimals and the heater column, with the 8/8 layout iff the temperature fits |
| Temperature.HeaterColumn | StardustMaster_v2/TemperatureSensors.cpp:131-139 | always eight characters and comma-free; blank iff the sensor does not drive the heater; otherwise "On" or "Off" from the flag, then blanks to eight characters |
| Temperature.DS18BPlaceholderLayout | StardustMaster_v2/TemperatureSensors.cpp:124 | the placeholder is 17 characters, blank, in fields of 8/8 |
| Temperature.DS18BAligned | StardustMaster_v2/TemperatureSensors.cpp:111-141 | with an eight-character name, header and line share the 8/8 layout whenever the value fits |
| Temperature.HeaterColumnIgnoresThermostat | StardustMaster_v2/TemperatureSensors.cpp:133 | the column reads the sensor's own HeaterOn: "Off     " while it is clear, even with the thermostat's heater on |
| Temperature.DHTTempSensor.constructor | MySensor.cpp:18-26 | base fields as for every sensor; humidity 0; the sensor does not drive the heater |
| Temperature.DHTTempSensor.InitSensor | StardustMaster_v2/TemperatureSensors.cpp:153-169 | UseForHeaterControl is cleared; a NaN test read runs FailSensor(DHT_NOT_FOUND) with "DHT sensor not found"; a numeric test read changes neither the fault list nor the log |
| Temperature.DHTTempSensor.ReadSensor | StardustMaster_v2/TemperatureSensors.cpp:171-194 | out of use: true, no change; otherwise the humidity is stored and a NaN temperature becomes -273 with result false; ErrMsg stays empty so the line is logged; a driven heater decides from the stored value, its pin and LED follow that decision, and a bad read switches it off |
| Temperature.DHTTempSensor.GetHeader | StardustMaster_v2/TemperatureSensors.cpp:196-201 | the name, "HeaterOn" and "DHTHumid" as three fields |
| Temperature.DHTTempSensor.GetLogLine | StardustMaster_v2/TemperatureSensors.cpp:203-227 | blanks in the 8/8/8 layout on an error; otherwise temperature, heater column and humidity (NaN as "nan"), in the 8/8/8 layout when both numbers fit |
| Temperature.DtostrfDoubleSpec | StardustMaster_v2/TemperatureSensors.cpp:223 | dtostrf of a double: a number as dtostrf writes it, NaN as "nan" behind blanks, comma-free and at least the width |
| Temperature.DHTAligned | StardustMaster_v2/TemperatureSensors.cpp:196-227 | with an eight-character name, header and line share the 8/8/8 layout whenever the values fit |
| Temperature.DHTBadReadLogged | StardustMaster_v2/TemperatureSensors.cpp:182-187 | a failed DHT read is logged as " -273.00", not as blanks |
| Temperature.AbsoluteZeroText | StardustMaster_v2/TemperatureSensors.cpp:185 | dtostrf(-273.0, 8, 2) is " -273.00" |
| Gps.ElapsedMs | StardustMaster_v2/GPSSensor.cpp:95 | millis() - startFixTime in unsigned 32-bit arithmetic: the time elapsed, also across a wrap of the clock |
| Gps.FixMessageShows | StardustMaster_v2/GPSSensor.cpp:94-98 | the message is the title, the minutes elapsed to one decimal in at least eight characters, then " minutes" |
| Gps.FixLog | StardustMaster_v2/GPSSensor.cpp:88-121 | one message exactly when the fix is established or lost, none otherwise |
| Gps.Step | StardustMaster_v2/GPSSensor.cpp:88-121 | a sentence establishes a fix exactly when it is valid, there was no fix and the fix type is above 0; it loses the fix exactly when it is invalid with fix type 0 |
| Gps.NextFix | StardustMaster_v2/GPSSensor.cpp:88-121 | the flag is raised by an established fix, lowered by a lost one and otherwise kept |
| Gps.FixStateMachine | StardustMaster_v2/GPSSensor.cpp:88-121 | a fix is established only from no fix on a valid sentence; it is kept on valid sentences; it is lost, and that is logged, on every invalid sentence with fix type 0, whatever the state before |
| Gps.GPSSensor.constructor | MySensor.h:146 | base fields as for every sensor; no fix, position 0, startFixTime read from the clock |
| Gps.GPSSensor.InitSensor | StardustMaster_v2/GPSSensor.cpp:32-66 | a receiver that does not answer runs FailSensor(GPS_NOT_FOUND) with the wiring message and nothing else changes; otherwise three configuration calls, no fix, position and altitude 0, startFixTime = now |
| Gps.GPSSensor.TrackFix | StardustMaster_v2/GPSSensor.cpp:88-121 | the fix flag takes the state machine's step; the fix type is asked for unless a valid sentence arrives with a fix held; a change logs the time since startFixTime and restarts it; the position is untouched |
| Gps.GPSSensor.ReadSensor | StardustMaster_v2/GPSSensor.cpp:73-125 | always true; out of use: no change and nothing logged; otherwise ErrMsg cleared, the fix tracked, and on a valid sentence latitude and longitude are raw/1e6 and the altitude is mm/1000 only when one is given; an invalid sentence keeps the position and the altitude |
| Gps.GPSSensor.GetHeader | StardustMaster_v2/GPSSensor.cpp:127-130 | the header is 30 characters in fields of 8/10/10 |
| Gps.PlaceholderLayout | StardustMaster_v2/GPSSensor.cpp:138 | the placeholder is 30 characters, blank, in fields of 8/10/10 |
| Gps.GPSSensor.GetLogLine | StardustMaster_v2/GPSSensor.cpp:132-150 | as written: blanks in 8/10/10 on an error; otherwise altitude (8,1), latitude (10,6) and longitude (10,6), in the 8/10/10 layout iff each fits |
| Gps.LatitudeFits | StardustMaster_v2/GPSSensor.cpp:144 | every latitude in -90..90 fits ten characters at six decimals |
| Gps.WestLongitudeOverflows | StardustMaster_v2/GPSSensor.cpp:147 | a longitude at or below -100 does not fit ten characters at six decimals |
| Gps.WestLongitudeMisaligns | StardustMaster_v2/GPSSensor.cpp:147 | as written, such a longitude gives a line whose layout differs from the header's |
| Gps.GPSSensor.GetHeaderAligned | StardustMaster_v2/GPSSensor.cpp:129 | corrected header: 31 characters in fields of 8/10/11 |
| Gps.GPSSensor.GetLogLineAligned | StardustMaster_v2/GPSSensor.cpp:147 | corrected line: the longitude in eleven characters, so every position on Earth keeps the header's 8/10/11 layout while the altitude fits |
| Gps.LongitudeFitsEleven | StardustMaster_v2/GPSSensor.cpp:147 | every longitude in -180..180 fits eleven characters at six decimals |
| Co2Uv.CO2HeaderLayout | StardustMaster_v2/CO2UV.cpp:79 | the CO2 header is 26 characters in three fields of eight |
| Co2Uv.CO2Sensor.constructor | MySensor.cpp:18-26 | base fields as for every sensor; temperature and humidity 0 |
| Co2Uv.CO2Sensor.InitSensor | StardustMaster_v2/CO2UV.cpp:18-41 | a failed begin runs FailSensor(CO2_NOT_FOUND) and returns with the port still enabled; otherwise the interval is set and the port disabled |
| Co2Uv.CO2Sensor.ReadSensor | StardustMaster_v2/CO2UV.cpp:43-75 | out of use: true and nothing touched, the mux included; otherwise one poll inside a mux bracket; no data: true, values kept; a failed read: false, ErrMsg set, values kept; data: all three values updated and ErrMsg empty |
| Co2Uv.CO2Sensor.GetHeader | StardustMaster_v2/CO2UV.cpp:77-80 | the header has the 8/8/8 layout |
| Co2Uv.CO2Sensor.GetLogLine | StardustMaster_v2/CO2UV.cpp:82-100 | blanks in 8/8/8 on an error; otherwise CO2, temperature, humidity to two decimals, in 8/8/8 iff each fits |
| Co2Uv.UVHeaderLayout | StardustMaster_v2/CO2UV.cpp:168 | the UV header is 26 characters in three fields of eight |
| Co2Uv.UVSensor.constructor | MySensor.cpp:18-26 | base fields as for every sensor; UVB and the index 0 |
| Co2Uv.UVSensor.InitSensor | StardustMaster_v2/CO2UV.cpp:107-142 | a failed begin runs FailSensor(UV_NOT_FOUND) and returns with the port still enabled; otherwise the port is disabled |
| Co2Uv.UVSensor.ReadSensor | StardustMaster_v2/CO2UV.cpp:144-163 | always true; out of use: no change; otherwise the index, UVA (Value) and UVB are all overwritten inside a mux bracket |
| Co2Uv.UVSensor.GetHeader | StardustMaster_v2/CO2UV.cpp:166-169 | the header has the 8/8/8 layout |
| Co2Uv.UVSensor.GetLogLine | StardustMaster_v2/CO2UV.cpp:171-190 | blanks in 8/8/8 on an error; otherwise UVA, UVB, index to two decimals, in 8/8/8 iff each fits |
| Faults.FaultList.constructor | StardustMaster_v2/ErrorCodes.cpp:12-13 | the list starts empty |
| Faults.FaultList.Codes | StardustMaster_v2/ErrorCodes.cpp:12-13 | the stored codes are at most ten and are the first reports, in report order |
| Faults.FaultList.FlashStatusError | StardustMaster_v2/ErrorCodes.cpp:15-24 | the message is logged on every call; below ten codes the new code is stored at the next index and the count rises by one; a full list is left unchanged; stored entries are never overwritten |
| Faults.FaultList.FlashErrors | StardustMaster_v2/ErrorCodes.cpp:26-32 | the codes shown are the stored codes in index order, once per pass, numTimes passes |
| Faults.RepeatAt | StardustMaster_v2/ErrorCodes.cpp:27-29 | in pass j, the k-th code shown is stored code k |
| Faults.RepeatLength | StardustMaster_v2/ErrorCodes.cpp:27-29 | numTimes passes show numTimes times the number of stored codes |
| Faults.CodeShownBy | StardustMaster_v2/ErrorCodes.h:11-18 | reading a signal back as a code gives 0..7, with 0 for solid green (no fault) |
| Faults.DisplayError | StardustMaster_v2/ErrorCodes.cpp:53-71 | the no-fault signal, solid green, is shown exactly for codes outside 1..7 |
| Faults.DisplayErrorDistinguishesCodes | StardustMaster_v2/ErrorCodes.cpp:53-71 | each code 1..7 shows a signal of its own, which reads back as that code; every other code shows solid green |
| Faults.DisplayErrorMatchesHeader | StardustMaster_v2/ErrorCodes.h:12-18 | each named code shows the signal its header comment gives |
| Config.StardustConfig.constructor | Config.h:28-29 | the global starts with both fields 0 |
| Config.StardustConfig.SetDefaults | StardustMaster_v2/Config.cpp:39-43 | sea-level pressure 1013.25 hPa, data-file interval 600000 ms |
| Config.StardustConfig.Init | StardustMaster_v2/Config.cpp:18-37 | defaults first; a file that does not open leaves them and logs its error; otherwise the loading message, then every line applied and logged in file order, an interval in radix 15 as written |
| Config.StardustConfig.LoadLines | StardustMaster_v2/Config.cpp:32-35 | the ReadLine loop: the settings become the lines' directives applied in order, and their messages, an interval in radix 15, are logged in order |
| Config.StardustConfig.LoadThisLine | StardustMaster_v2/Config.cpp:46-88 | the new settings are the line's directive applied to the old, and one message is logged exactly for a recognised key: the pressure to two decimals, or the interval as ltoa writes it in radix 15 |
| Config.LoadLine | StardustMaster_v2/Config.cpp:46-88 | empty and '#' lines change nothing; SEALEVELPRESSURE replaces only the pressure, by toFloat of the next token; DATAFILEMSECBUMP replaces only the interval, by toInt; any other key changes nothing |
| Config.Apply | StardustMaster_v2/Config.cpp:59-77 | a directive changes at most the field it names |
| Config.Directives | StardustMaster_v2/Config.cpp:32-35 | one directive per line, in file order: the i-th directive is the classification of the i-th line |
| Config.DirectivesStep | StardustMaster_v2/Config.cpp:32-35 | one more line adds its directive at the end |
| Config.ApplyStep | StardustMaster_v2/Config.cpp:32-35 | applying and logging one more directive extends the run by one step |
| Config.LoadStep | StardustMaster_v2/Config.cpp:32-35 | loading line i after the earlier lines gives the settings and the log of the first i+1 lines |
| Config.LastPressureWins | StardustMaster_v2/Config.cpp:32-35 | the pressure comes from the last directive that sets it, or is kept when none does |
| Config.LastBumpWins | StardustMaster_v2/Config.cpp:32-35 | the interval comes from the last directive that sets it, or is kept when none does |
| Config.LastPressureLineWins | StardustMaster_v2/Config.cpp:32-35 | on the file's own lines: the pressure is toFloat of the value of the last line whose key is SEALEVELPRESSURE, and is kept when no line has that key |
| Config.LastBumpLineWins | StardustMaster_v2/Config.cpp:32-35 | on the file's own lines: the interval is toInt of the value of the last line whose key is DATAFILEMSECBUMP, and is kept when no line has that key |
| Config.ParsesAssignment | StardustMaster_v2/Config.cpp:55-61 | "name = value" with blanks around the name reads as key toUpperCase(name) and value "value" |
| Config.KeyIgnoresCase | StardustMaster_v2/Config.cpp:55-59 | two spellings of a key differing only in letter case and in surrounding blanks select the same key |
| Config.PressureMessageShows | StardustMaster_v2/Config.cpp:65-71 | the pressure message is "Config:  Loaded SEALEVELPRESSURE with " and the pressure to two decimals in at least eight characters |
| Config.BumpMessageAsWritten | StardustMaster_v2/Config.cpp:80-86 | as written: the interval is logged as ltoa writes it in radix 15 |
| Config.DefaultInBase15 | StardustMaster_v2/Config.cpp:84 | 600000 in radix 15 is "bcba0" |
| Config.Base15Misread | StardustMaster_v2/Config.cpp:77 | toInt reads "bcba0" as 0 |
| Config.DefaultBumpMisread | StardustMaster_v2/Config.cpp:84 | the interval message for 600000, the default value, ends in "bcba0", which toInt reads back as 0 |
| Config.BumpMessageReadsBack | StardustMaster_v2/Config.cpp:80-86 | corrected: the interval logged in decimal reads back with toInt as the value itself, of either sign |
| Config.DirectiveLog | StardustMaster_v2/Config.cpp:65-86 | a directive logs one message when it sets a field, none otherwise: the pressure message shows the pressure to two decimals in at least eight characters; the interval message holds the interval's 32-bit pattern in radix 15, as written |
| Config.BumpLineMisread | StardustMaster_v2/Config.cpp:74-86 | as written: a line that sets the interval to 600000 is logged with "bcba0", which toInt reads back as 0 |
| Config.Classify | StardustMaster_v2/Config.cpp:46-77 | empty and '#' lines are ignored; a line sets the pressure exactly when its trimmed, upper-cased key is SEALEVELPRESSURE, to toFloat of its value, and the interval exactly when the key is DATAFILEMSECBUMP, to toInt of its value |
| Config.DirectivesLog | StardustMaster_v2/Config.cpp:32-35 | at most one message per directive; nothing is logged exactly when every directive is ignored, and one message per directive exactly when none is |
| Config.DirectivesLogPrefix | StardustMaster_v2/Config.cpp:32-35 | the log of the first k directives is the start of the whole log: messages appear in directive order |
| Parse.StrTokSpec | StardustMaster_v2/Config.cpp:55 | strtok(s, "=") gives NULL exactly when s is all delimiters; otherwise a non-empty token with no "=" in it, after the leading delimiters and before the next one |
| Parse.StrTokFromSpec | StardustMaster_v2/Config.cpp:55 | the same, from a position that only delimiters precede |
| Parse.TokenAt | StardustMaster_v2/Config.cpp:55 | the first non-delimiter starts the token |
| Parse.TokenLengthStops | StardustMaster_v2/Config.cpp:55 | the token's run holds no delimiter and ends at one or at the end |
| Parse.StrTokSplits | StardustMaster_v2/Config.cpp:55-61 | a token followed by "=" is exactly what strtok finds, and the next call starts after that "=" |
| Parse.StrTokWhole | StardustMaster_v2/Config.cpp:61 | a token with nothing after it is the whole text |
| Parse.TokenPrefix | StardustMaster_v2/Config.cpp:55 | a delimiter-free prefix followed by "=" or the end is a whole run |
| Parse.TrimLeftSplit | StardustMaster_v2/Config.cpp:56 | what trim removes at the front is white space, and what it keeps is the rest |
| Parse.TrimRightSplit | StardustMaster_v2/Config.cpp:56 | what trim removes at the back is white space, and what it keeps is the start |
| Parse.Trim | StardustMaster_v2/Config.cpp:56 | the result starts and ends with no white space and is no longer than the input |
| Parse.TrimPadded | StardustMaster_v2/Config.cpp:56 | blanks around a word are exactly what trim removes |
| Parse.TrimLeftSpaces | StardustMaster_v2/Config.cpp:56 | leading blanks before a non-blank are removed exactly |
| Parse.TrimRightSpaces | StardustMaster_v2/Config.cpp:56 | trailing blanks after a non-blank are removed exactly |
| Parse.ToUpperChars | StardustMaster_v2/Config.cpp:57 | toUpperCase keeps the length and maps each character by toupper on its own |
| Parse.ToInt | StardustMaster_v2/Config.cpp:77 | atol gives 0 with no digits, and its sign follows the optional sign |
| Parse.ToFloat | StardustMaster_v2/Config.cpp:62 | the sign of the result follows the optional sign |
| Parse.PointedDecimal | StardustMaster_v2/Config.cpp:62 | digits, a point and digits read as whole plus fraction over ten to the fraction's length |
| Parse.DecimalOfNatToString | StardustMaster_v2/Config.cpp:77 | decimal digits read back as the number they were made from |
| Parse.LtoaDecimalRoundTrip | StardustMaster_v2/Config.cpp:77 | atol reads ltoa's decimal text back as the same number, of either sign |
| Parse.SignedDigits | StardustMaster_v2/Config.cpp:77 | an optional minus sign and digits read back as their signed value |
| Format.DtostrfSpec | MySensor.cpp:41 | dtostrf's text shows the value to prec decimals behind blanks, holds no comma, is at least the width long and exactly the width iff the value fits |
| Format.FitsIff | MySensor.cpp:41 | a value fits iff its rounded magnitude has no more integer digits than the width leaves after the sign, the point and the decimals |
| Format.SignedFixedPointFits | MySensor.cpp:41 | the same on the rounded magnitude |
| Format.DecimalLength | MySensor.cpp:41 | a number has at most k decimal digits iff it is below 10^k |
| Format.PadLeft | MySensor.cpp:41 | right-aligns in at least the width, behind blanks, never truncating |
| Format.Spaces | MySensor.cpp:37 | n blanks |
| Format.NatToString | StardustMaster_v2/Config.cpp:84 | the digits of n in the radix, at least one, with no sign, point, blank or comma |
| Format.Ltoa | StardustMaster_v2/Config.cpp:84 | in radix 10 a non-negative value is written as its decimal digits |
| Format.Mstrcat | SystemParameters.h:87 | the assumed bound: target is kept and as much of src is appended as keeps the text below tarLim characters |
| Record.SplitJoin | MySensor.cpp:190-196 | splitting a line at its commas undoes joining fields that hold no comma |
| Record.SplitPrefix | MySensor.cpp:190-196 | a comma-free text extends the first field of what follows it |
| Record.SplitTwo | StardustMaster_v2/TemperatureSensors.cpp:129-139 | two comma-free fields joined by a comma split back into those fields |
| Record.SplitThree | MySensor.cpp:190-196 | three comma-free fields joined by commas split back into those fields |
| Record.Widths | MySensor.cpp:186 | the width of each field |

## Left out

- Hardware libraries (Wire/I2C, Adafruit BMP3XX, SCD30, VEML6075, u-blox GNSS,
  MicroNMEA, DHT, OneWire/DallasTemperature, pinMode, digitalWrite, analogRead, millis)
  are not modelled. What they return is a method parameter.
- Only device transactions are traced: each mux register access and each call that
  talks to a sensor's device (begin, configure, read, readAltitude) is one entry in
  the board's ghost trace. Pin set-up and output (pinMode, digitalWrite of GPS_FIX_ON
  at GPSSensor.cpp:36-37, 90 and 112, pinMode at TemperatureSensors.cpp:27), the
  MicroNMEA accessors (isValid, getLatitude, getLongitude, getAltitude at
  GPSSensor.cpp:88 and 102-105), which read a sentence already parsed, millis() and
  `Wire.begin()` are not traced.
- Bmp388.BMP388Sensor.ReadSensor: the altitude is a parameter of the reading. Its
  derivation from the configured sea-level pressure (`MyConfig.SeaLevelPressure`,
  MySensor.cpp:168) is not modelled; only the device access it makes is.
- Floating-point arithmetic and formatting use exact reals. dtostrf rounds halves away
  from zero, with no binary rounding of doubles; pressure/100, rdg·5/1024, raw/1e6 and
  the fix minutes are exact quotients.
- Truncation of a record line at the logger's MAXLOGLINELENGTH is not modelled. That
  constant lives in the logger library, which is not part of this model. When Mstrcat
  builds a record line it is taken as a plain concatenation.
- Format.Mstrcat: Mstrcat's body (SystemParameters.h:86-87) is not part of this model.
  Its contract is the assumed bounded-append behaviour, and it is used only for
  FailSensor's 80-byte buffer.
- The fixed buffers `tempbuf[15]` and `buf2[15]` and a dtostrf text longer than them
  are not modelled.
- The LED side of the fault display is not modelled: FlashPulses, FlashErrNumber,
  Blink and every delay are output timing. FlashErrNumber (ErrorCodes.cpp:48) and
  DisplayError's case 6 (ErrorCodes.cpp:65) are malformed C++. Case 6 follows the
  header comment (ErrorCodes.h:17, flashing yellow). FlashErrors returns the codes
  in the order they would be displayed.
- printAddress and all Serial output are debug output and are not modelled.
- The sensor-set tables (MySensor.cpp:277, 280) and MaxSensors are configuration, and
  the acquisition loop that walks them is not part of this model.
- The commented-out low-voltage halt (MySensor.cpp:225-234) is not modelled, on
  purpose.
- VoltSensor.InitSensor holds only pinMode, so it is not modelled.
- The disk's OpenFile and ReadLine are not modelled. Init takes their outcome as an
  `OpenResult`: an error message, or the file's trimmed lines.
- Parse.ToInt: atol's overflow of a 32-bit long is not modelled; integers are
  unbounded. Ltoa does model the 32-bit pattern of a negative value in a radix other
  than 10.
- Parse.ToFloat: exponents, "inf", "nan" and hex forms of atof are not modelled. The
  contract states only the sign; PointedDecimal gives the value of plain decimal text.
- Config.PressureMessageShows: states the message's shape and the digits of the
  pressure. It does not prove that atof reads that text back, because the rounding to
  two decimals makes the read-back inexact.
- Gps.GPSSensor.ReadSensor: the two millis() calls of one transition (GPSSensor.cpp:95
  and 100) are one clock value `now`.
- Temperature.DHTTempSensor.GetLogLine: the layout is stated in one direction only, as
  "aligned when both numbers fit".
- Gps.GPSSensor.GetLogLineAligned: the layout is stated in one direction only, for
  positions on Earth and an altitude that fits.
- The base class's HeaterOn is never assigned in the shown code. It starts false, as
  every sensor is a zero-initialised global.
- Mux ports below -1 would shift by a negative amount, which is undefined behaviour in
  C++. The methods that touch the mux require `MuxPort >= NO_MUX`.
- FailSensor's strcpy of the name into its 80-byte buffer requires a name shorter than
  80 characters.

## Findings

| source | as written | input that shows it | evidently intended | confidence | as-written member | corrected member |
|---|---|---|---|---|---|---|
| StardustMaster_v2/Config.cpp:84 | `ltoa(DataFileMsecBump, tempbuf, 15)` passes 15 as ltoa's radix, so the "Loaded" message writes the interval in base 15 | a configuration line `DataFileMsecBump = 600000` is logged as "Config:  Loaded DATAFILEMSECBUMP with bcba0", and toInt reads "bcba0" back as 0 | the decimal value, radix 10 | not executed | Config.BumpLineMisread | Config.BumpMessageReadsBack |
| StardustMaster_v2/GPSSensor.cpp:147 | `dtostrf(Longitude, 10, 6, buf2)` gives the longitude ten characters, but a longitude at or west of 100° W at six decimals needs eleven | Longitude = -105.0 gives "-105.000000", 11 characters, so the line's columns shift against the 8/10/10 header | a longitude field as wide as the widest longitude, eleven characters, with the header to match | not executed | Gps.WestLongitudeMisaligns | Gps.GPSSensor.GetLogLineAligned |

`Config.StardustConfig.LoadThisLine` and `Config.DirectiveLog` log the interval as
written, in radix 15, through `Config.BumpMessageAsWritten`. `Config.BumpMessage` is
the corrected message, in decimal; `Config.BumpMessageReadsBack` proves that it reads
back as the interval. `SetDefaults` logs nothing, so the message appears only when a
configuration line sets the interval.
