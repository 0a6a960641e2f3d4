# ModularSensors core, modelled in Dafny

This project models six step-by-step procedures of the ModularSensors Arduino
library and proves properties about them.

- **Digi XBee cellular modems.** The provisioning script of the bypass-mode
  driver (`extraModemSetup`). The provisioning script, the airplane-mode
  wake and sleep routines, and the metadata poll of the transparent-mode
  driver.
- **Atlas Scientific EC circuit.** Its `setup`: four output-enable
  transactions on I2C, the error bits, and restoring the power state.
- **External voltage sensor (ADS1115).** The constructors, `getSensorLocation`
  and `addSingleMeasurementResult`.
- **Decagon 5TM soil probe.** `addSingleMeasurementResult`: range clamps,
  Topp's water-content polynomial, the three result slots and the status mask.
- **Hologram publisher.**
  - `setToken`, both `begin` overloads and the constructors.
  - `calculateJsonSize`, `printSensorDataJSON` and `printEnviroDIYRequest`.
  - `publishData`: the payload built through the 37-byte `tempBuffer`, and
    the status code read back from the reply.

Each piece follows the source's form:
- Drivers are classes whose methods update their fields.
- Loops are `while` loops with invariants.
- Each method is proved against pure specification functions. Lemmas state
  what the source promises of those functions.

The modem is an oracle. The `XBeeLink.Link` class (`xbee_link.dfy`) answers
every TinyGSM transaction with the next entry of a fixed sequence of
outcomes. Signal readings come from a second sequence. It records every call
in a log of events. An exhausted sequence stands for a module that does not
reply: its transactions return false, and its signal reads report 0.

The sensors' device readings are method parameters, as are the results of
base-class hooks (`Sensor::setup`, `checkPowerOn`, `waitForProcessing`) and
the replies of the I2C bus. What `powerUp`, `waitForWarmUp` and `powerDown`
do to the status register is a given function for each (`AtlasEC.PowerHooks`). Values handed to
`verifyAndAddMeasurementResult` are appended to a `handed` sequence, and
the sensor status register is a `bv8` (`sensor_status.dfy`).

The Hologram publisher writes to `Stream` and `Client` objects that record
the text they receive. The logger is reduced to the three things the
publisher reads:
- the sampling feature UUID;
- the marked ISO 8601 time;
- the (UUID, value) strings of its variables.

Shared text helpers (`text.dfy`) cover digits in any base, C strings and
C's `atoi`.

## Model

Source paths are relative to the repository root.

| member | source | states |
|---|---|---|
| CellularBypass.DigiXBeeCellularBypass.constructor | src/modems/DigiXBeeCellularBypass.cpp:15-33 | The APN and the link to the modem are stored. The modem name starts empty, which is assumed of the base class (see "Left out"). |
| CellularBypass.DigiXBeeCellularBypass.ExtraModemSetup | src/modems/DigiXBeeCellularBypass.cpp:45-120 | The result is the escape's OK, then each of the fourteen replies, then `init()`. The log is the guard time, `+++` and its await, then (only after an OK) every command with its await, the reset pause, `init()` and the name query. 16 answers are consumed after an OK, 1 without. The modem name is overwritten exactly when the escape was answered. |
| CellularBypass.SetupResultMeaning | src/modems/DigiXBeeCellularBypass.cpp:51-119 | The setup succeeds if and only if the escape got its OK, all fourteen commands got theirs, and `init()` succeeded. |
| CellularBypass.EscapeRefused | src/modems/DigiXBeeCellularBypass.cpp:48-51 | Without an OK to `+++`: the result is false, one answer is consumed, and the log only gains the guard time, the escape and its await. No AT command is sent, and neither `init()` nor the name query runs. |
| CellularBypass.SetupLogRunsScript | src/modems/DigiXBeeCellularBypass.cpp:53-114 | After the escape, the log is one run of the whole script, with one reply awaited after each command and whatever those replies were: no command is skipped after a failure. |
| CellularBypass.ScriptSent | src/modems/DigiXBeeCellularBypass.cpp:56-108 | After the escape, exactly D8=1, D9=1, D7=1, SM=1, SO=0, DO=0, P0=0, P1=0, CP=2, N#=2, AP5, WR, AC, FR are sent, in that order. |
| CellularBypass.CommandPosition | src/modems/DigiXBeeCellularBypass.cpp:56-109 | Command k of the script sits at position 3+2k of the new log, with the await of its reply right after it. |
| CellularBypass.BypassOrder | src/modems/DigiXBeeCellularBypass.cpp:98-108 | AP5 is sent before WR, WR before AC, and AC before FR. |
| CellularBypass.DigiXBeeCellularBypass.SetIoPins | src/modems/DigiXBeeCellularBypass.cpp:53-66 | Sends D8, D9, D7 and awaits each reply. The flag survives only if it was set and all three replies were OK, so a false flag never becomes true again. |
| CellularBypass.DigiXBeeCellularBypass.SetSleepOptions | src/modems/DigiXBeeCellularBypass.cpp:68-73 | The same for SM=1 and SO=0. |
| CellularBypass.DigiXBeeCellularBypass.SetOtherOptions | src/modems/DigiXBeeCellularBypass.cpp:74-86 | The same for DO=0, P0=0 and P1=0. |
| CellularBypass.DigiXBeeCellularBypass.SetCarrierOptions | src/modems/DigiXBeeCellularBypass.cpp:87-95 | The same for CP=2 and N#=2. |
| CellularBypass.DigiXBeeCellularBypass.TurnOnBypass | src/modems/DigiXBeeCellularBypass.cpp:96-109 | The same for AP5, WR, AC and FR. |
| CellularTransparent.DigiXBeeCellularTransparent.ExtraModemSetup | src/modems/DigiXBeeCellularTransparent.cpp:90-195 | The result is `init()`, command mode, the eleven checked replies, `gprsConnect`, the AP0 reply and `restart()`. The log is `init()`, the client binding, the name query and the command-mode request; with command mode granted it continues through the eleven commands, the APN, AP0, the write, the exit and the restart. 18 answers are consumed with command mode, 2 without. The modem name is always set. |
| CellularTransparent.SetupResultMeaning | src/modems/DigiXBeeCellularTransparent.cpp:94-184 | The setup succeeds if and only if `init()`, command mode, all eleven checked commands (D8, D9, D7, D5, P0, SM, SO, DO, TD0A, P1, TM), `gprsConnect`, AP0 and `restart()` succeeded. |
| CellularTransparent.UncheckedReplies | src/modems/DigiXBeeCellularTransparent.cpp:179-181 | The outcomes of `writeChanges` and `exitCommand` change neither the result, nor the log, nor the number of answers consumed. |
| CellularTransparent.CommandModeRefused | src/modems/DigiXBeeCellularTransparent.cpp:94-99 | If command mode is refused, the result is false and no AT command is sent. `init()`, the client binding and the name query have already run. |
| CellularTransparent.SetupLogRunsScript | src/modems/DigiXBeeCellularTransparent.cpp:99-184 | In command mode the log is one run of the eleven checked commands, whatever their replies, followed by the APN, AP0 with its reply, the write, the exit and the restart. |
| CellularTransparent.ScriptSent | src/modems/DigiXBeeCellularTransparent.cpp:94-176 | In command mode exactly the eleven commands and then AP0 are sent, in order, even when `init()` failed. A failed `init()` makes the result false. |
| CellularTransparent.DigiXBeeCellularTransparent.SetIoPins | src/modems/DigiXBeeCellularTransparent.cpp:100-136 | Sends D8, D9, D7, D5 and P0 with argument 1. The flag survives only if it was set and all five replies were OK. |
| CellularTransparent.DigiXBeeCellularTransparent.SetSleepOptions | src/modems/DigiXBeeCellularTransparent.cpp:138-143 | The same for SM=1 and SO=0. |
| CellularTransparent.DigiXBeeCellularTransparent.SetOtherOptions | src/modems/DigiXBeeCellularTransparent.cpp:144-160 | The same for DO=0, TD0A, P1=0 and TM=64. |
| CellularTransparent.DigiXBeeCellularTransparent.ApplyAndRestart | src/modems/DigiXBeeCellularTransparent.cpp:170-184 | Logs the APN, AP0 with its reply, the write, the exit and the restart. The flag keeps only `gprsConnect`, the AP0 reply and `restart()`; the write and the exit are ignored. |
| CellularTransparent.DigiXBeeCellularTransparent.ModemWake | src/modems/DigiXBeeCellularTransparent.cpp:45-64 | Always returns true. With no pin it does nothing. Otherwise it drives the pin to the wake level first; if command mode is granted it then sends AM 0, writes the changes and exits command mode. |
| CellularTransparent.DigiXBeeCellularTransparent.ModemSleep | src/modems/DigiXBeeCellularTransparent.cpp:68-87 | Always returns true. With no pin it does nothing. Otherwise the airplane-mode command comes first (when command mode is granted), and the pin is driven to the opposite of the wake level last. |
| CellularTransparent.WakeSleepPins | src/modems/DigiXBeeCellularTransparent.cpp:46-86 | With no pin, both logs are unchanged. Otherwise wake's first event is the pin write at the wake level, and sleep's last event is the pin write at the complementary level. Both send exactly AM 0 when command mode is granted, and nothing otherwise. |
| CellularTransparent.DigiXBeeCellularTransparent.PollSignal | src/modems/DigiXBeeCellularTransparent.cpp:316-323 | The do-while loop takes `Polls` readings. It returns the last one. It logs one query per reading and a 250 ms pause after each reading without signal. |
| CellularTransparent.PollsStopAtFirstGood | src/modems/DigiXBeeCellularTransparent.cpp:316-323 | Every reading before the last one was 0 or -9999. The last reading is good, unless the window ran out. |
| CellularTransparent.PollLogQueries | src/modems/DigiXBeeCellularTransparent.cpp:316-323 | The poll sends no AT command. Its log holds only signal queries and pauses. |
| CellularTransparent.DigiXBeeCellularTransparent.UpdateModemMetadata | src/modems/DigiXBeeCellularTransparent.cpp:292-340 | Always returns true. The battery fields end at -9999. The RSSI is the last reading taken, the signal percentage is derived from it, and the temperature is the chip's. Command mode is entered once and exited once, around the poll and the temperature query. |
| CellularTransparent.DigiXBeeCellularTransparent.constructor | src/modems/DigiXBeeCellularTransparent.cpp:15-28 | The APN and the sleep-request pin are stored. The pin wakes the module at `XBEE_WAKE_LEVEL`, which is LOW (src/modems/DigiXBee.h:58). The modem name starts empty. The metadata fields start at -9999, which is assumed of the base class (see "Left out"). |
| AtlasEC.AtlasScientificEC.constructor | src/sensors/AtlasScientificEC.cpp:15-21 | The I2C address is stored. The AtlasParent base receives the name `AtlasScientificEC`, 4 variables, a 745 ms warm-up, no stabilization time, a 600 ms measurement time, the power pin and the measurement count. |
| AtlasEC.AtlasScientificEC.Default | src/sensors/AtlasScientificEC.h:193-195 | With the optional arguments left out: address 0x64 (`ATLAS_COND_I2C_ADDR`) and one measurement to average. Otherwise it is the same as the constructor. |
| AtlasEC.AtlasScientificEC.Setup | src/sensors/AtlasScientificEC.cpp:26-76 | The result is the `&=` chain from `Sensor::setup` through the four transactions. The status is `Sensor::setup`'s, passed through `powerUp` (only if the sensor was off) and the warm-up wait, then marked failed with bit 7 set and bit 0 cleared if setup failed, then passed through `powerDown` (only if the sensor had been off). Power is switched up before and down after exactly when the sensor was off. All sixteen bus events are logged in order. |
| AtlasEC.SetupStatusOwnBits | src/sensors/AtlasScientificEC.cpp:65-70 | If the power hooks leave the status alone, a successful setup leaves `Sensor::setup`'s status unchanged. A failed one sets bit 7, clears bit 0 and keeps bits 1 to 6. |
| AtlasEC.AtlasScientificEC.EnableOutputs | src/sensors/AtlasScientificEC.cpp:36-63 | EC, TDS, S and SG are sent in that order with counts 6, 7, 5, 6, each one whatever the earlier ones answered. |
| AtlasEC.AtlasScientificEC.Enable | src/sensors/AtlasScientificEC.cpp:38-41 | One transaction: begin, write, end, wait. The flag is anded with the written count (as a bit), with `endTransmission` returning 0, and with the processing result. |
| AtlasEC.SetupResultMeaning | src/sensors/AtlasScientificEC.cpp:27-63 | As written, the setup succeeds if and only if `Sensor::setup` did and every write returned an odd count, ended with code 0 and was processed. |
| AtlasEC.AndAssignIsBitwise | src/sensors/AtlasScientificEC.cpp:39 | Anding a bool flag with a byte count in C keeps the flag exactly when the count is odd. |
| AtlasEC.CommandsInOrder | src/sensors/AtlasScientificEC.cpp:38-63 | Transaction k is begin, write of command k with its count, end, wait. Each count is the command's length. |
| AtlasEC.PerfectBusFails | src/sensors/AtlasScientificEC.cpp:39 | As written, setup fails even when the bus writes every byte and every command succeeds. |
| AtlasEC.IntendedSetupMeaning | src/sensors/AtlasScientificEC.cpp:38-63 | With the intended check, setup succeeds if and only if `Sensor::setup` did and every command went out whole, ended with 0 and was processed; so on a perfect bus it succeeds. |
| SensorStatus.MarkSetupFailed | src/sensors/AtlasScientificEC.cpp:65-70 | Bit 7 is set, bit 0 is cleared, and bits 1 to 6 are unchanged. |
| SensorStatus.ClearRequestBits | src/sensors/ExternalVoltage.cpp:106 | Bits 5 and 6 are cleared; every other bit is unchanged. |
| ExternalVoltageSensor.ExternalVoltage.constructor | src/sensors/ExternalVoltage.cpp:19-29 | The channel, gain and address are stored unchanged. The Sensor base receives the name `ExternalVoltage`, 1 variable, a 2 ms warm-up, no stabilization or measurement time, the power pin, data pin -1 and the measurement count. |
| ExternalVoltageSensor.ExternalVoltage.Default | src/sensors/ExternalVoltage.h:235-237 | With the optional arguments left out: gain 1, address 0x48 (`ADS1115_ADDRESS`) and one measurement to average. Otherwise it is the same as the constructor. |
| ExternalVoltageSensor.ExternalVoltage.GetSensorLocation | src/sensors/ExternalVoltage.cpp:34-44 | The location starts with `ADS1115_0x` and reads back as this sensor's build, I2C address (lower-case hex) and channel (decimal). |
| ExternalVoltageSensor.LocationRoundTrip | src/sensors/ExternalVoltage.cpp:34-44 | For either build, parsing the location string gives back the build, the address and the channel. |
| ExternalVoltageSensor.LocationInjective | src/sensors/ExternalVoltage.cpp:40-42 | Two sensors with the same location string have the same address and the same channel. |
| ExternalVoltageSensor.ExternalVoltage.AddSingleMeasurementResult | src/sensors/ExternalVoltage.cpp:47-113 | Returns true if and only if status bit 6 was set and the reading lies strictly between -0.3 and 3.6. Slot 0 receives reading × gain in that case and -9999 otherwise. The converter is read only when bit 6 was set. Bits 5 and 6 end cleared with the other bits kept, and the request time stamp becomes 0. |
| Decagon5TMSensor.Decagon5TM.constructor | src/sensors/Decagon5TM.h:184-188 | The SDI-12 address and the data pin are stored. The SDI-12 sensor base receives the name `Decagon5TM`, 3 variables, a 200 ms warm-up, no stabilization time, a 200 ms measurement time, the power pin and the measurement count. |
| Decagon5TMSensor.Decagon5TM.Default | src/sensors/Decagon5TM.h:184-185 | With the measurement count left out (one). Otherwise it is the same as the constructor. |
| Decagon5TMSensor.Decagon5TM.AddSingleMeasurementResult | src/sensors/Decagon5TM.cpp:12-96 | Returns true if and only if status bit 6 was set, whatever was parsed. Slots 0, 1 and 2 receive ea, temperature and VWC, all -9999 when bit 6 was clear. The SDI-12 exchange happens only with bit 6 set. Bits 5 and 6 are cleared, the other bits are kept, and the time stamp is zeroed. |
| Decagon5TMSensor.Decagon5TM.ReadData | src/sensors/Decagon5TM.cpp:26-75 | The SDI-12 object is begun only if it was not active. Then: clear, `[address]D0!`, 30 ms, address echo read, two numbers parsed, clear, end. ea outside [0, 350] and temperature outside [-50, 60] become -9999; VWC is Topp's polynomial of ea. |
| Decagon5TMSensor.Decagon5TM.DataCommand | src/sensors/Decagon5TM.cpp:39-42 | The command is the sensor's address followed by `D0!`. |
| Decagon5TMSensor.VwcSentinelIff | src/sensors/Decagon5TM.cpp:59-63 | VWC is -9999 if and only if ea is -9999. |
| Decagon5TMSensor.ToppRange | src/sensors/Decagon5TM.cpp:60-62 | For ea in [0, 350], Topp's polynomial lies between -5.3 % and 12715.45 %, so it never yields the sentinel. |
| Decagon5TMSensor.ResultsInRange | src/sensors/Decagon5TM.cpp:53-63 | The slots are 0, 1, 2. Each value is -9999 or within its accepted range. An accepted ea is passed through, and its VWC is Topp's value. |
| Decagon5TMSensor.NotStartedAllSentinel | src/sensors/Decagon5TM.cpp:16-18 | With no measurement started, every slot receives -9999. |
| Hologram.HologramPublisher.SetToken | src/publishers/HologramPublisher.cpp:68-71 | The token is replaced and nothing else changes. |
| Hologram.HologramPublisher.BeginWithClient | src/publishers/HologramPublisher.cpp:161-168 | The base `begin` is called once, with the client passed in, and the token is already the new one when it runs. Afterwards the logger is attached and carries the new sampling feature. |
| Hologram.HologramPublisher.Begin | src/publishers/HologramPublisher.cpp:169-176 | The same, but the base `begin` is called without a client (null). |
| Hologram.HologramPublisher.constructor | src/publishers/HologramPublisher.cpp:33-35 | No logger, no client and no base `begin` call yet. |
| Hologram.HologramPublisher.WithToken | src/publishers/HologramPublisher.cpp:46-63 | Both token overloads. The logger and the client are handed to the base (null for the overload without a client). The token is stored, and the logger's sampling feature is set. |
| Hologram.HologramPublisher.WithLogger | src/publishers/HologramPublisher.cpp:36-45 | Both logger overloads. The logger and the client are handed to the base (null for the overload without a client). |
| Hologram.HologramPublisher.CalculateJsonSize | src/publishers/HologramPublisher.cpp:75-94 | The loop computes, in `uint16_t`, 56 + Σ(39 + length of each value) + (n − 1 commas, or 0 when n = 0). |
| HologramFormat.SizeAccTotal | src/publishers/HologramPublisher.cpp:77-91 | The loop's running sum, plus the fixed parts, equals the closed formula modulo 2^16. |
| Hologram.HologramPublisher.PrintSensorDataJson | src/publishers/HologramPublisher.cpp:117-134 | The stream receives exactly the JSON: the device-id tag, the id, the body tag, the ISO time and `",`, then each `"uuid":value` with commas between and none after the last, then `}`. |
| HologramFormat.SensorDataJsonShape | src/publishers/HologramPublisher.cpp:125-133 | The loop's output equals the comma-join of the variables' `"uuid":value`, checked against an independent recursive join. |
| HologramFormat.JoinLength | src/publishers/HologramPublisher.cpp:125-131 | A comma-joined list has the sum of its parts' lengths plus one comma fewer than it has parts. |
| HologramFormat.JsonLength | src/publishers/HologramPublisher.cpp:117-134 | With a 25-character time and 36-character UUIDs, the JSON is 55 characters plus what the size loop adds. |
| HologramFormat.JsonSizeOffByOne | src/publishers/HologramPublisher.cpp:79 | As written, the computed size exceeds the JSON's length by exactly one (modulo 2^16). |
| HologramFormat.NoVariablesOffByOne | src/publishers/HologramPublisher.cpp:75-94 | With no variables and a 25-character time, the JSON has 55 characters and the announced size is 56. |
| HologramFormat.IntendedSizeIsLength | src/publishers/HologramPublisher.cpp:77-91 | With 9 counted for the 9-character body tag, the size is the JSON's length (modulo 2^16). |
| Hologram.HologramPublisher.PrintEnviroDIYRequest | src/publishers/HologramPublisher.cpp:139-157 | The stream receives the headers with the token, the computed size in decimal as the Content-Length, the content-type header, and then the JSON. |
| HologramFormat.RequestAnnouncesOneMore | src/publishers/HologramPublisher.cpp:151-156 | The Content-Length that `atoi` reads back from the request is the length of the JSON that follows it plus one. |
| Hologram.ToCharArray | src/publishers/HologramPublisher.cpp:202 | `toCharArray(tempBuffer, 37)` leaves the 37-byte image of a `strncpy` of at most 36 characters followed by a terminator. |
| HologramFormat.CopyImagePiece | src/publishers/HologramPublisher.cpp:202-203 | `strcat` of the tempBuffer then appends the string cut at 36 characters and at its first NUL. |
| HologramFormat.PieceBounds | src/publishers/HologramPublisher.cpp:187 | Each piece copied through the tempBuffer is a prefix of its string, at most 36 characters long. A short string without NUL goes through whole. |
| Hologram.HologramPublisher.BuildPayload | src/publishers/HologramPublisher.cpp:198-220 | The transmit buffer holds exactly the payload: `{"k":"`, token, `","d":"time,`, the ISO piece and `,`, then each `uuid,value` with commas between, then `"}`. The tempBuffer ends holding the image of everything copied through it. |
| HologramFormat.PayloadShape | src/publishers/HologramPublisher.cpp:198-220 | The payload's variable part equals the comma-join of `uuid,value` items, checked against the independent join. |
| Hologram.Client.ReadBytes | src/publishers/HologramPublisher.cpp:234 | At most 12 reply bytes are stored at the start of the tempBuffer and counted; the rest of the buffer is kept. |
| Hologram.HologramPublisher.PublishData | src/publishers/HologramPublisher.cpp:184-260 | If the connection is accepted: the payload is sent, the client is stopped, and the code is read from tempBuffer characters 9 to 11. Otherwise nothing is sent, no stop happens, and the code is 504. |
| HologramFormat.NoReplyIs504 | src/publishers/HologramPublisher.cpp:247-255 | With no response bytes, the code is 504. |
| HologramFormat.IntendedReadsStatus | src/publishers/HologramPublisher.cpp:246-252 | With the code's fourth byte terminated, an `HTTP/1.1 ddd` reply yields the status code ddd. |
| HologramFormat.StrayDigitScalesCode | src/publishers/HologramPublisher.cpp:248-252 | As written, a digit in the never-set byte after the three code characters makes the code 10 × ddd + that digit. |
| HologramFormat.StrayZeroExample | src/publishers/HologramPublisher.cpp:248-252 | An `HTTP/1.1 200 OK` reply with a stray `0` yields 2000 as written and 200 as intended. |
| Text.DigitsRoundTrip | src/sensors/ExternalVoltage.cpp:40-42 | Parsing the printed digits of a number (hex or decimal, as `String(n, HEX)` and `String(n)` produce them) gives the number back. |
| Text.AtoiDecimal | src/publishers/HologramPublisher.cpp:152 | `atoi` reads back a printed number up to the first character that is not a digit. |

## Left out

- Time is not modelled. `delay` calls are logged as events. `millis()` is
  left out: the 2000 ms escape bound is a logged time-out, and the 1500 ms
  SDI-12 busy wait (`src/sensors/Decagon5TM.cpp:47-48`) is omitted. The
  10 s response wait is folded into the reply bytes the `Client` holds.
- CellularTransparent.DigiXBeeCellularTransparent.UpdateModemMetadata: the 15 s window is a parameter, the number of polls after which the window has closed. Which poll that is depends on the modem's response times, which are not modelled.
- CellularTransparent.DigiXBeeCellularTransparent.UpdateModemMetadata: readings are unbounded integers, not `int16_t`. `getPctFromRSSI` is taken as a given function, and `getModemChipTemperature` as a stored value.
- TinyGSM internals are not modelled: `init`, `commandMode`, `gprsConnect`,
  `writeChanges`, `exitCommand`, `restart`, the reply matching of
  `waitResponse`, and the ignored return values. Each transaction is one
  outcome. An await does not record the expected reply text (`OK\r`).
- The `MS_MODEM_*` macro expansions are not part of this model. Neither is
  `getNISTTime`, nor any modem file other than the two `extraModemSetup`
  drivers.
- Floating point: readings, gains and Topp's polynomial are exact reals, so
  no claim is made about `float` rounding.
- The base classes' constructors (`Sensor`, `AtlasParent`, the SDI-12 sensor
  base, `dataPublisher`, `DigiXBee`) are not part of this model. The drivers'
  constructors store what they are given and record what they hand to their
  base class (`SensorStatus.SensorParams`, the publisher's logger and
  client); what the base classes then do with it is not modelled.
- Hologram.HologramPublisher.WithLogger: the `sendEveryX` and `sendOffset` arguments are not modelled.
- Hologram.HologramPublisher.WithToken: the `sendEveryX` and `sendOffset` arguments are not modelled.
- Hologram.HologramPublisher.BeginWithClient: that the base class's `begin` attaches the logger and the client is presumed; that base class is not part of this model.
- Decagon5TMSensor.Decagon5TM.constructor: only the overload taking the address as a `char` is modelled. The `char*` and `int` overloads (src/sensors/Decagon5TM.h:192-203) pass their address to the SDI-12 base, which converts it; that base is not part of this model.
- CellularBypass.DigiXBeeCellularBypass.constructor: that the modem name starts empty is an assumption about the loggerModem base class, which is not part of this model. The stream, power, status, CTS, reset-pin and measurement-count arguments are not modelled, and neither is the `TinyGsmClient` the constructor creates.
- CellularTransparent.DigiXBeeCellularTransparent.constructor: the metadata fields starting at -9999 is an assumption about the loggerModem base class, which is not part of this model. The stream, power, status, CTS and reset-pin arguments, which go to the base classes and TinyGSM, are not modelled.
- ExternalVoltageSensor.UseAds1015: the `MS_USE_ADS1015` build flag is a constant set to the default build (off). `SensorLocation` and `LocationRoundTrip` cover both settings.
- The ADS1115 conversion (`setGain`, `begin`, `readADC_SingleEnded_V`) is
  one logged read whose result is a parameter. The SDI-12 calls are logged
  events, and `parseFloat`'s results are parameters.
- `verifyAndAddMeasurementResult` is not modelled beyond recording the slot
  and the value handed to it.
- Hologram.HologramPublisher.BuildPayload: the transmit buffer's flushing (`bufferFree`, `printTxBuffer`) belongs to the base class, which is not part of this model. The model sends the whole payload at once. This gives the same text only if `printTxBuffer` writes the buffer's C string and empties it, and every item fits in the space `bufferFree()` reports.
- Hologram.HologramPublisher.BuildPayload: a possible buffer overflow is not modelled. The buffer is flushed only when fewer than 47 bytes are free (src/publishers/HologramPublisher.cpp:208). One item can then add up to 36 + 1 + 36 + 1 = 74 characters plus the terminator (lines 210-216). With exactly 47 bytes free, a 10-character value such as `-9999.0000` would overrun the buffer, unless `bufferFree` keeps a reserve.
- Hologram.HologramPublisher.BuildPayload: `txBuffer[strlen(txBuffer)] = ','` is modelled as appending a comma. This presumes the byte after it is a terminator, which depends on the unseen buffer's state.
- Hologram.HologramPublisher.PublishData: the never-set fourth byte of `responseCode_char`, and whatever follows it, is the parameter `stray`. `atoi` is exact, with no `int` overflow; only the final `int16_t` conversion wraps around.
- Hologram.HologramPublisher.PrintEnviroDIYRequest: the base class's `postHeader`, `HTTPtag` and `hostHeader` literals are not part of this model. They are the parameter `h`.
- The logger is reduced to the strings the publisher reads, so
  `formatDateTime_ISO8601` and the variables' value formatting are not
  modelled. C strings (`const char*`) are their characters.
- Debug output (`MS_DBG`, `PRINTOUT`) is omitted.
- In `updateModemMetadata`, the `&& success` part of the loop condition is
  always true, because `success` is never reassigned. `PollSignal` still
  carries it as the `going` flag.

## Findings

| source | as written | input that shows it | evidently intended | confidence | as-written member | corrected member |
|---|---|---|---|---|---|---|
| src/publishers/HologramPublisher.cpp:79 | counts 10 characters for the 9-character `,"body":"` tag, so the announced Content-Length is one more than the JSON's length | any logger with a 25-character time and 36-character UUIDs, e.g. no variables: the JSON has 55 characters, the size is 56 (HologramFormat.NoVariablesOffByOne) | count 9, so the size equals the JSON's length | not executed | HologramFormat.JsonSizeOffByOne | HologramFormat.IntendedSizeIsLength |
| src/sensors/AtlasScientificEC.cpp:39 | `success &= Wire.write(..., 6)` ands the flag (0 or 1) with the byte count, so an even count clears it; lines 39 and 60 write 6 bytes | a bus that writes every byte and answers every command: setup returns false and sets the error bit | check that the count equals the command's length | not executed | AtlasEC.PerfectBusFails | AtlasEC.IntendedSetupMeaning |
| src/publishers/HologramPublisher.cpp:248-252 | `responseCode_char[3]` is never set before `atoi`, so whatever follows the three code characters is read as well | reply `HTTP/1.1 200 OK` with a `0` in that byte: the code is 2000 | set `responseCode_char[3]` to the terminator | not executed | HologramFormat.StrayDigitScalesCode | HologramFormat.IntendedReadsStatus |

The methods that model each procedure keep the code as written:
`CalculateJsonSize`, `AtlasScientificEC.Setup` and `PublishData`. The
corrected definitions `IntendedJsonSize`, `IntendedSetupResult` and
`IntendedResponseCode` sit beside them, each with its intended property
proved. For `PublishData`, the corrected behaviour is the case where
`stray` starts with the terminator (`HologramFormat.IntendedReadsStatus`
covers it).
