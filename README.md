# GravityMon Gateway — a Dafny model of the gateway core

GravityMon Gateway is ESP32 firmware that collects hydrometer readings and
forwards them to push targets. Readings arrive in two ways. GravityMon and
Tilt devices advertise over Bluetooth LE. GravityMon devices also post JSON
over WiFi to the gateway's `/post` endpoint. The gateway keeps the readings
in fixed tables. Every pass of the main loop scans, pushes each reading
that is due to the configured HTTP POST, HTTP GET, InfluxDB v2 and MQTT
targets, and writes a line to a nine-line log on the display.

The model follows the firmware file by file:

| file | module | what it holds |
|---|---|---|
| `wrappers.dfy` | `Wrappers` | `Option` |
| `units.dfy` | `Units` | 32-bit integer ranges, the °C/°F and SG/Plato conversions |
| `json_doc.dfy` | `JsonDoc` | an already-parsed JSON object and the key coercions the firmware uses (`containsKey`, `isNull`, `as<String>()`, `as<int>()`, …) |
| `ble_data.dfy` | `BleData` | the records of blescanner.hpp (`TiltColor`, `TiltData`, `GravitymonData`), their update/push bookkeeping, millisecond ages with 32-bit wrap-around, and the first-match-or-empty slot lookup `findGravitymonId` |
| `beacon_decode.dfy` | `BeaconDecode` | the byte-level decoders of blescanner.cpp: `%.2x` hex rendering and `strtoul` parsing, the `%6x` chip id, the Tilt UUID table, the Tilt, GravityMon iBeacon and Eddystone layouts, the two JSON paths, and the routing decision of `onResult` |
| `ble_scanner.dfy` | `BleScanner` | the `BleScanner` object as a class: its two tables (arrays), the connect queue, `scan`, `waitForScan`, each advertisement handler, and the connect-and-read session |
| `gateway_config.dfy` | `GatewayConfig` | `GravmonGatewayConfig` as a class: the six gateway settings, their setters, the validated gravity-format setter, and the JSON emit/parse |
| `push_target.dfy` | `PushTarget` | `GravmonGatewayPush`: the default templates, template selection, the values given to the templating engine for one reading, the battery charge table, and `sendAll` |
| `web_server.dfy` | `WebServer` | `GravmonGatewayWebServer` as a class: the HTTP table, `/post`, the format upload, the push-test request, status and loop step, and the device list of the status page |
| `controller.dfy` | `Controller` | main.cpp: the log ring, `addLogEntry`, `renderDisplayLogs`, `controller` and gateway-mode `loop` |

Some modelling choices:

- Code that updates state in place stays imperative. This covers the
  scanner, the web server, the configuration, the push object and the log
  ring. Each method is proved against a specification function.
  - A device table is an `array<GravitymonData>`.
  - A write through `getGravitymonData(idx)` becomes a write of that array
    cell.
  - Loops keep their invariants.
- Exact reals stand in for `float`.
- The millisecond clock is a `u32` parameter `now`. Ages are computed with
  unsigned 32-bit wrap-around.
- The result of `getLocalTime` is an optional `WallClock` parameter.
- Some quirks of the code are reproduced as written:
  - the connect path converts a non-°C temperature with `convertCtoF`;
  - the extended-beacon path reads the key `temp`, while the connect path
    reads `temperature`;
  - `/post` answers 200 and then 422 for a known device;
  - the `gravitymon` name check returns before the iBeacon checks.

## Model

| member | source | states |
|---|---|---|
| Units.ToUnsigned | src/main.cpp:291 | the signed resend time as an unsigned 32-bit compare operand sees it: the one `uint32_t` value congruent to it modulo 2^32, which is C's conversion rule |
| Units.ToUnsignedUnique | src/main.cpp:291 | a `uint32_t` congruent to the signed value modulo 2^32 is the converted value, so the conversion is unique |
| Units.PlatoCubic | src/pushtarget.cpp:242 | SG to Plato is the cubic -616.868 + 1111.14·sg − 630.272·sg² + 135.997·sg³ |
| Units.CtoFRoundTrip | src/webserver.cpp:288-291 | converting °C to °F and back gives the original temperature, for every value |
| JsonDoc.TruncToInt | src/config.cpp:63-66 | `as<int>()` of a number truncates toward zero: the result is within 1 of the value and on the zero side of it, for both signs |
| JsonDoc.AsInt32 | src/config.cpp:63-66 | an integer coercion that fits in 32 bits is kept unchanged |
| JsonDoc.AsIntOfInteger | src/webserver.cpp:280-281 | a key holding an integral number coerces to exactly that integer |
| BleData.TiltColor.Value | src/blescanner.hpp:64-74 | enumerator values are -1..7, and -1 exactly for `None` |
| BleData.ColorOfValue | src/blescanner.hpp:64-74 | every value -1..7 is the value of a colour (the inverse of `Value`) |
| BleData.ColorValueInjective | src/blescanner.hpp:64-74 | two colours with the same value are the same colour, so the Tilt table index is unique per colour |
| BleData.AgeSeconds | src/blescanner.hpp:139-140 | `(millis() - t) / 1000` in unsigned 32-bit arithmetic: the plain difference when `t <= now`, wrapped by 2^32 otherwise, bounded by (2^32-1)/1000 |
| BleData.AgeZeroAtStamp | src/blescanner.hpp:139-140 | the age is 0 at the instant of the stamp |
| BleData.AgeMonotone | src/blescanner.hpp:139-140 | without a wrap, a later clock never gives a smaller age |
| BleData.TiltData.SetUpdated | src/blescanner.hpp:90-94 | sets `updated`, stamps the clock (update age 0) and the wall time when known; the data points and the push stamp are unchanged |
| BleData.TiltData.SetPushed | src/blescanner.hpp:96-99 | clears `updated`, stamps the push time (push age 0); data and update stamps are unchanged |
| BleData.GravitymonData.SetUpdated | src/blescanner.hpp:128-132 | sets `updated`, stamps the clock and the wall time when known; points, address, type and push stamp are unchanged |
| BleData.GravitymonData.SetPushed | src/blescanner.hpp:134-137 | clears `updated` and stamps the push time; everything else is unchanged |
| BleData.FindSlot | src/blescanner.hpp:172-176 | the first index whose id equals the query or is empty; -1 exactly when no slot matches either way |
| BleData.FindGravitymonId | src/blescanner.hpp:172-176 | the lookup loop over the table returns `FindSlot` of its id column |
| BleData.EmptyTableWellFormed | src/blescanner.hpp:194 | a table of empty ids (the initial state) is well formed: non-empty ids are unique and come before every empty slot |
| BleData.UpsertKeepsWellFormed | src/blescanner.cpp:143-156 | storing a reading for any id keeps the id column well formed |
| BleData.KnownIdFound | src/blescanner.hpp:172-176 | in a well-formed table, a known id is found in its own slot and re-storing it leaves the id column unchanged |
| BleData.UpsertedIdUnique | src/blescanner.cpp:143-153 | after a successful store the id occurs in exactly one slot |
| BleData.FullTableRejects | src/blescanner.cpp:154-156 | a table of 8 other non-empty ids answers -1 for a new id, and nothing is overwritten |
| BleData.EmptyQueryFindsFreeSlot | src/blescanner.hpp:172-176 | looking up "" yields the first empty slot, or -1 exactly when no slot is empty |
| BleData.UpsertIdColumn | src/blescanner.cpp:143-153 | the id column after storing is the id-level upsert of the old column |
| BeaconDecode.ParseHexOfHexString | src/blescanner.cpp:457-485 | `strtoul(..., 16)` of the `%.2x` rendering of a byte run gives its big-endian value |
| BeaconDecode.FormatChipId | src/blescanner.cpp:140-141 | `%6x` of a 32-bit chip id is 6 to 8 characters long |
| BeaconDecode.ChipIdRoundTrip | src/blescanner.cpp:140-141 | stripping the padding of a `%6x` chip id and parsing it as hex gives the chip id back |
| BeaconDecode.ChipIdInjective | src/blescanner.cpp:140-141 | different chip ids give different device ids |
| BeaconDecode.ChipIdExample | src/blescanner.cpp:132-141 | chip bytes 00 00 fa 41 give the id "  fa41" |
| BeaconDecode.UuidToTiltColor | src/blescanner.cpp:510-529 | a colour is returned only for its own UUID, and `None` exactly when the UUID is none of the eight |
| BeaconDecode.UuidColorRoundTrip | src/blescanner.cpp:32-39 | each colour's UUID maps back to that colour |
| BeaconDecode.TiltColorName | src/blescanner.cpp:531-550 | the name is empty exactly for `None` |
| BeaconDecode.TiltColorNameInjective | src/blescanner.cpp:531-550 | different colours have different names |
| BeaconDecode.DecodeTilt | src/blescanner.cpp:436-508 | a reading exists exactly when the preamble is 4c 00 02 15 and the hex of bytes 4..19 is a colour's UUID |
| BeaconDecode.TiltLayout | src/blescanner.cpp:483-503 | raw gravity ≥ 5000 marks a Tilt Pro (gravity/10000, temp/10); otherwise gravity/1000 and temp as sent |
| BeaconDecode.TiltSampleDecodes | src/blescanner.cpp:446-448 | the sample advertisement decodes to Purple, 80.0 °F, SG 1.241, tx power 197 |
| BeaconDecode.DecodeGravitymonIBeacon | src/blescanner.cpp:132-141 | decoded fields lie in the ranges the 16-bit scalings allow, and the id has 6 to 8 characters |
| BeaconDecode.DecodeGravitymonEddystone | src/blescanner.cpp:168-184 | the same bounds for the Eddystone frame read from offset 23 |
| BeaconDecode.EddystoneAgreesWithIBeacon | src/blescanner.cpp:132-184 | the two decoders give the same reading when their frames carry the same bytes at their own offsets |
| BeaconDecode.EddystoneSampleDecodes | src/blescanner.cpp:165-166 | the sample frame decodes to id "  162e", angle 123.45, battery 3.211, gravity 0, temperature 4.235 |
| BeaconDecode.StoreBeacon | src/blescanner.cpp:146-152 | a stored beacon reading sets id, address, type and the four values, and keeps every other field |
| BeaconDecode.StoreJson | src/blescanner.cpp:219-233 | a stored JSON reading takes its id, gravity, angle, RSSI, name, token and interval from the document, the given temperature, the address and the integer-coerced battery, and keeps tx power and bookkeeping |
| BeaconDecode.TemperatureKeysDiffer | src/blescanner.cpp:219-221 | the extended beacon reads its temperature from `temp` only, and the connect path from `temperature` only |
| BeaconDecode.ConnectConversionDiffers | src/blescanner.cpp:327-329 | the conversion the connect path applies agrees with a °F to °C conversion only at -40 |
| BeaconDecode.Route | src/blescanner.cpp:45-116 | each advertisement goes to at most one handler. A `gravitymon` name selects Eddystone, then extended beacon, then the connect queue. Otherwise the 4-byte preamble selects the Tilt or the GravityMon iBeacon decoder. Each choice holds exactly under its condition. |
| BleScanner.TiltHexFields | src/blescanner.cpp:457-476 | the loop builds the hex of bytes 4..19, 20..21, 22..23 and 24, each clipped to the data length |
| BleScanner.StoreTilt | src/blescanner.cpp:501-507 | the Tilt record takes the decoded values and RSSI and is marked updated now; the push stamp is kept |
| BleScanner.TiltResult | src/blescanner.cpp:478-481 | the handler returns `None` exactly when the advertisement does not decode |
| BleScanner.BeaconWrite | src/blescanner.cpp:146-153 | the in-place write gives the slot the chip id and marks it updated now |
| BleScanner.JsonWrite | src/blescanner.cpp:218-234 | the in-place write gives the slot the JSON id, type ExtBeacon and the temperature, and marks it updated now |
| BleScanner.Acquire | src/blescanner.cpp:250-289 | obtaining a client never reads or disconnects. A client is deleted only after a failed first connect. A client is created only when none can be reused and the registry has room. A new client that cannot connect is created, connected and deleted. A client is obtained exactly when a failed reconnect did not give up, a client was reused or created and connected, and the client is or becomes connected. |
| BleScanner.ObtainClient | src/blescanner.cpp:250-289 | the imperative client acquisition returns what `Acquire` specifies |
| BleScanner.ConnectSession | src/blescanner.cpp:246-363 | a session succeeds exactly when the value was read and parsed, and then its reading is the parsed object. A failed reconnect makes only that call. A full registry makes no call. A new client that cannot connect gives exactly create, connect and delete. Once a client is obtained, every session ends with a disconnect. A deleted client is never disconnected. |
| BleScanner.ReadSession | src/blescanner.cpp:291-362 | the imperative session returns what `ConnectSession` specifies |
| BleScanner.ApplySession | src/blescanner.cpp:324-346 | a session without a reading leaves the table unchanged |
| BleScanner.FullRegistryStillSucceeds | src/blescanner.cpp:343-362 | a read from an unknown device when the table is full returns true and changes nothing |
| BleScanner.UpsertKeepsTableWellFormed | src/blescanner.cpp:143-156 | every store keeps the table's id column well formed |
| BleScanner.ApplySessionKeepsWellFormed | src/blescanner.cpp:324-346 | a connect session keeps the table well formed |
| BleScanner.DrainKeepsWellFormed | src/blescanner.cpp:426-431 | draining the whole connect queue keeps the table well formed |
| BleScanner.FailedSessionsChangeNothing | src/blescanner.cpp:426-431 | if every queued session fails, the table is unchanged |
| BleScanner.ClearTilt | src/blescanner.cpp:398-400 | every Tilt record is kept except that `updated` is cleared |
| BleScanner.ClearGravitymon | src/blescanner.cpp:403-405 | every GravityMon record is kept except that `updated` is cleared |
| BleScanner.ClearGravitymonKeepsIds | src/blescanner.cpp:403-405 | clearing keeps the id column, is idempotent and leaves no record updated |
| BleScanner.BleScanner.constructor | src/blescanner.hpp:182-195 | scan time 5, passive scan, no scanner yet, an empty queue, all records empty |
| BleScanner.BleScanner.SetScanTime | src/blescanner.hpp:157 | stores the scan time |
| BleScanner.BleScanner.SetAllowActiveScan | src/blescanner.hpp:158 | stores the active-scan flag |
| BleScanner.BleScanner.Scan | src/blescanner.cpp:390-417 | false without a scanner. True while a scan runs, with nothing touched. Otherwise both tables get `updated` cleared and the result is whether the scan started. |
| BleScanner.BleScanner.Init | src/blescanner.cpp:370-383 | creates the scanner. When no scan was running it starts one with the given result and clears the updated flags of both the Tilt and the GravityMon tables; when one was running it reports success and changes neither table |
| BleScanner.BleScanner.ProcessTiltBeacon | src/blescanner.cpp:436-508 | returns the decoded colour. Only that colour's record is overwritten, and with `None` nothing changes. |
| BleScanner.BleScanner.Store | src/blescanner.cpp:143-156 | the table becomes the upsert of the write at the `FindSlot` index, and the index is returned |
| BleScanner.BleScanner.ProcessGravitymonBeacon | src/blescanner.cpp:122-157 | the iBeacon reading is upserted as type Beacon |
| BleScanner.BleScanner.ProcessGravitymonEddystoneBeacon | src/blescanner.cpp:159-201 | the Eddystone reading is upserted as type EddyStone |
| BleScanner.BleScanner.ProcessGravitymonExtBeacon | src/blescanner.cpp:203-238 | a parse error changes nothing; otherwise the JSON reading is upserted under its `ID` |
| BleScanner.BleScanner.ProcessGravitymonDevice | src/blescanner.cpp:240-244 | appends the address to the connect queue |
| BleScanner.BleScanner.ConnectGravitymonDevice | src/blescanner.cpp:246-363 | the result and calls are those of `ConnectSession`, and the table becomes `ApplySession` of the old one |
| BleScanner.BleScanner.WaitForScan | src/blescanner.cpp:419-434 | false and no change without a scanner. Otherwise the scan has ended, the queue is empty, and the table is the old queue drained in order. |
| BleScanner.BleScanner.OnResult | src/blescanner.cpp:45-116 | applies exactly the handler `Route` chose. The connect queue changes only for the connect case. Each table changes only under its own handlers. A Tilt frame that decodes to no colour leaves the Tilt table unchanged. The Tilt table, GravityMon table and connect queue it leaves are `HeardTilt`, `HeardTable` and `HeardQueue` of the old ones. |
| BleScanner.BleScanner.EddystoneSearch | src/blescanner.cpp:54-65 | the Eddystone flag is set exactly when some service-data entry carries the Eddystone UUID |
| BleScanner.HeardTilt | src/blescanner.cpp:88-99 | the Tilt table after one callback keeps one slot per colour |
| BleScanner.HeardTable | src/blescanner.cpp:50-115 | the GravityMon table after one callback keeps its size |
| BleScanner.ScanTilt | src/blescanner.cpp:45-116 | the Tilt table after the callbacks of a scan, in the order heard, keeps one slot per colour |
| BleScanner.ScanTable | src/blescanner.cpp:45-116 | the GravityMon table after the callbacks of a scan, in the order heard, keeps its size |
| BleScanner.ScanKeepsWellFormed | src/blescanner.cpp:143-156 | the callbacks of a scan keep the id column well formed |
| BleScanner.HeardIBeaconStored | src/blescanner.cpp:103-115 | a GravityMon iBeacon whose chip id has its own slot or a free one is stored in that slot under that id and marked updated |
| BleScanner.ScanStep | src/blescanner.cpp:45-116 | one more callback extends each of the Tilt, GravityMon and queue folds by that advertisement's `onResult` |
| BleScanner.ScanOne | src/blescanner.cpp:45-116 | the callbacks for a single advertisement are that advertisement's `onResult` |
| BleScanner.DrainKeepsUpdated | src/blescanner.cpp:426-431 | the connect sessions of `waitForScan` never clear an `updated` flag |
| BleScanner.HeardIBeaconSurvivesDrain | src/blescanner.cpp:419-434 | a GravityMon iBeacon stored during the scan is still marked updated once `waitForScan` has drained the connect queue |
| BleScanner.BleScanner.HearAll | src/blescanner.cpp:45-116 | after the callbacks for a run of advertisements, in order, the Tilt table, GravityMon table and connect queue are the folds `ScanTilt`, `ScanTable` and `ScanQueue` of `onResult` over them |
| BleScanner.BleScanner.ScanHearing | src/blescanner.cpp:390-417 | `scan`, then the callbacks: the advertisements reach `onResult` exactly when a scanner exists and a scan was running or starts. Both tables' flags are cleared first when a scanner exists and no scan was running, whether or not the new one starts. The tables and queue are then the folds over what was heard, and the scan flag is set when a scan was running or started |
| GatewayConfig.AcceptGravityFormat | src/config.hpp:82-87 | 'G' and 'P' are accepted; any other character leaves the format unchanged |
| GatewayConfig.ApplyJson | src/config.cpp:53-66 | each setting changes only when its key is present and not null; a valid gravity format stays valid |
| GatewayConfig.EmitJson | src/config.cpp:39-44 | exactly the six gateway keys are written, none null |
| GatewayConfig.ParseEmitRoundTrip | src/config.cpp:39-66 | parsing the emitted document restores every setting from any starting state |
| GatewayConfig.ForeignDocumentChangesNothing | src/config.cpp:53-66 | a document without gateway keys changes no setting and does not mark a save |
| GatewayConfig.InvalidGravityFormatIgnored | src/config.cpp:55-58 | a gravity format whose first character is not 'G' or 'P' is ignored |
| GatewayConfig.GravmonGatewayConfig.constructor | src/config.hpp:34-39 | the default settings (empty token and timezone, 'G', passive scan, 5 s scan, 300 s resend) with no save pending |
| GatewayConfig.GravmonGatewayConfig.SetToken | src/config.hpp:52-55 | stores the token and marks a save |
| GatewayConfig.GravmonGatewayConfig.SetTimezone | src/config.hpp:58-61 | stores the timezone and marks a save |
| GatewayConfig.GravmonGatewayConfig.SetBleScanTime | src/config.hpp:64-67 | stores the scan time and marks a save |
| GatewayConfig.GravmonGatewayConfig.SetPushResendTime | src/config.hpp:70-73 | stores the resend time and marks a save |
| GatewayConfig.GravmonGatewayConfig.SetBleActiveScan | src/config.hpp:76-79 | stores the flag and marks a save |
| GatewayConfig.GravmonGatewayConfig.SetGravityFormat | src/config.hpp:82-87 | the format follows `AcceptGravityFormat`, and a save is marked exactly for a valid character |
| GatewayConfig.GravmonGatewayConfig.IsWifiPushActive | src/config.hpp:91-96 | true exactly when some push target is configured |
| GatewayConfig.GravmonGatewayConfig.ExactlyOneGravityUnit | src/config.hpp:88-89 | exactly one of SG and Plato is selected |
| GatewayConfig.GravmonGatewayConfig.CreateJson | src/config.cpp:33-45 | the output document is the input plus the emitted gateway keys, and other keys are kept |
| GatewayConfig.GravmonGatewayConfig.ParseJson | src/config.cpp:47-67 | the settings become `ApplyJson` of the old ones, and a save is marked exactly when some present key went through a setter that marks one (an invalid gravity format does not) |
| GatewayConfig.GravmonGatewayConfig.ParseTextKeys | src/config.cpp:53-60 | token, gravity format and timezone follow `ApplyJson` |
| GatewayConfig.GravmonGatewayConfig.ParseScanKeys | src/config.cpp:61-66 | active scan, scan time and resend time follow `ApplyJson` |
| PushTarget.MqttFormatIsSevenSegments | src/pushtarget.cpp:70-77 | the MQTT default is the seven `ispindel/<mdns>/<field>:<value>` segments in order |
| PushTarget.DefaultTemplate | src/pushtarget.cpp:135-156 | both POST targets use the iSpindel body; GET, InfluxDB and MQTT have their own default |
| PushTarget.DefaultTemplatesDiffer | src/pushtarget.cpp:33-77 | the two POST defaults coincide, and any two other targets have different defaults |
| PushTarget.UpToNul | src/pushtarget.cpp:161-164 | the loaded text is the longest NUL-free prefix of the file |
| PushTarget.UpToNulWhole | src/pushtarget.cpp:161-164 | a file without NUL is loaded whole |
| PushTarget.SelectTemplate | src/pushtarget.cpp:129-171 | a stored file replaces the default unless the default is forced or no file exists |
| PushTarget.ForcedDefaultIgnoresStore | src/pushtarget.cpp:158-168 | a forced default does not depend on the stored files |
| PushTarget.TableChargeBounded | src/pushtarget.cpp:202-225 | the first-match walk of a descending charge table yields at least 0 and at most the entry it starts from |
| PushTarget.TableChargeMonotone | src/pushtarget.cpp:202-225 | that walk never gives less charge for a higher voltage |
| PushTarget.BatteryPercent | src/pushtarget.cpp:202-225 | the charge lies in 0..100, is 100 exactly above 4.15 V and 0 exactly at or below 3.44 V |
| PushTarget.BatteryPercentIsTable | src/pushtarget.cpp:202-225 | the if-chain equals the first-match walk of its breakpoint table |
| PushTarget.BatteryTableDescending | src/pushtarget.cpp:202-225 | the breakpoint charges never rise from one entry to the next and are never negative |
| PushTarget.BatteryPercentMonotone | src/pushtarget.cpp:202-225 | a higher voltage never gives a lower charge |
| PushTarget.PopulateCoversAll | src/pushtarget.cpp:173-260 | after setup every placeholder has a value |
| PushTarget.NameFallback | src/pushtarget.cpp:182 | `mdns` is the reading's name when non-empty, else the configured mDNS name; `id` is the reading's id |
| PushTarget.TokenFallback | src/pushtarget.cpp:184-185 | `token` and `token2` are the reading's token when non-empty, else the configured token |
| PushTarget.TemperatureFollowsUnit | src/pushtarget.cpp:188-192 | `temp` is °C when the format is 'C', otherwise °F |
| PushTarget.TemperatureBothUnits | src/pushtarget.cpp:194-196 | `temp-c` is the °C value and `temp-f` a value that converts back to it, whatever the format |
| PushTarget.GravityFollowsUnit | src/pushtarget.cpp:238-245 | `gravity` and `corr-gravity` are SG when the format is 'G', otherwise Plato |
| PushTarget.GravityBothUnits | src/pushtarget.cpp:247-252 | the SG and Plato variants are always set, and the corrected gravity equals the raw one in both units |
| PushTarget.TiltIsAngle | src/pushtarget.cpp:234-235 | `tilt` and `angle` both carry the angle |
| PushTarget.BatteryPlaceholders | src/pushtarget.cpp:199-227 | `battery` is the voltage, `battery-percent` its table charge, `sleep-interval` the interval |
| PushTarget.MetricsAndVersion | src/pushtarget.cpp:230-255 | run time 0, the WiFi RSSI, and the application version and build |
| PushTarget.DeliveriesOnlyEnabled | src/pushtarget.cpp:96-124 | only enabled targets are sent, each rendered from its own template |
| PushTarget.DeliveriesAllEnabled | src/pushtarget.cpp:96-124 | every enabled target is sent |
| PushTarget.DeliveriesInOrder | src/pushtarget.cpp:96-124 | sends go out in the fixed order POST, POST2, GET, InfluxDB, MQTT, each at most once |
| PushTarget.PushActiveIffSomeDelivery | src/config.hpp:91-96 | something is sent exactly when WiFi push is active |
| PushTarget.GravmonGatewayPush.GetTemplate | src/pushtarget.cpp:129-171 | returns and keeps the template `SelectTemplate` chooses |
| PushTarget.GravmonGatewayPush.SetupTemplateEngine | src/pushtarget.cpp:173-260 | the engine's values become `Populate` of the old ones |
| PushTarget.GravmonGatewayPush.SetNames | src/pushtarget.cpp:181-185 | the name, id and token values are set |
| PushTarget.GravmonGatewayPush.SetTemperature | src/pushtarget.cpp:187-196 | the temperature values are set |
| PushTarget.GravmonGatewayPush.SetBatteryAndTimer | src/pushtarget.cpp:198-227 | the battery, charge and interval values are set |
| PushTarget.GravmonGatewayPush.SetMetricsAndAngle | src/pushtarget.cpp:229-235 | the run-time, RSSI, tilt and angle values are set |
| PushTarget.GravmonGatewayPush.SetGravity | src/pushtarget.cpp:237-252 | the gravity values are set |
| PushTarget.GravmonGatewayPush.SendAll | src/pushtarget.cpp:85-127 | the sends are `Deliveries` for the configured targets and this reading's values |
| PushTarget.GravmonGatewayPush.SendEnabled | src/pushtarget.cpp:96-124 | the five guarded sends produce exactly `Deliveries` |
| PushTarget.GravmonGatewayPush.Send | src/pushtarget.cpp:96-100 | one send appends one rendered delivery |
| WebServer.FormatKeyInjective | src/webserver.cpp:189-203 | the five request keys are distinct |
| WebServer.DecodeRemotePost | src/webserver.cpp:257-281 | every absent key decodes to its default ("" or 0) |
| WebServer.RemoteTempC | src/webserver.cpp:288-291 | a posted temperature in °C is stored as posted; any other is converted from °F |
| WebServer.HttpWrite | src/webserver.cpp:288-302 | the slot gets every posted reading field (id, temperature in °C, gravity, angle, battery, RSSI, name, token, interval) and type Http and is marked updated now; address, tx power and push stamp are kept |
| WebServer.FullTableIgnoresPost | src/webserver.cpp:283-308 | a post from a ninth device leaves the full HTTP table unchanged |
| WebServer.PostRefreshesKnownDevice | src/webserver.cpp:283-302 | a post from a known device rewrites only its own slot |
| WebServer.ApplyFormat | src/webserver.cpp:189-191 | one key's write leaves the other templates untouched |
| WebServer.FormatFilesPerTemplate | src/webserver.cpp:189-204 | each template file is written, removed or kept according to its own key alone |
| WebServer.FormatSuccessIff | src/webserver.cpp:187-211 | the upload reports success exactly when some template was stored or removed |
| WebServer.TestSink | src/webserver.cpp:469-499 | a test target is chosen only if it is enabled and its key is the requested one |
| WebServer.SinkKeyInjective | src/webserver.cpp:469-499 | the five target keys are distinct |
| WebServer.TestSinkIff | src/webserver.cpp:469-499 | the test goes to a target exactly when it is enabled and named by the request |
| WebServer.TestReading | src/webserver.cpp:465-467 | the test reading carries the configured token, the mDNS name and the device id |
| WebServer.Listed | src/webserver.cpp:147-158 | listed entries have non-empty ids and the given endpoint, and there are no more of them than slots |
| WebServer.ListedIff | src/webserver.cpp:147-172 | an entry is listed exactly when some slot with a non-empty id produces it |
| WebServer.BleBeforeWifi | src/webserver.cpp:144-172 | all BLE entries precede all WiFi entries |
| WebServer.PushTestMessagesDistinct | src/webserver.cpp:319-324 | the running, never-started and complete messages differ from each other for every target |
| WebServer.StatusAfterTest | src/webserver.cpp:319-324 | once `loop` has cleared the task and recorded the outcome, a failed test reads "No push test has been started" and a successful one reads as complete |
| WebServer.GravmonGatewayWebServer.constructor | src/webserver.hpp:32-38 | no test is scheduled, the status fields are cleared, the table is empty, and the template files are as given |
| WebServer.GravmonGatewayWebServer.FindGravitymonId | src/webserver.hpp:57-61 | the HTTP table's lookup is `FindSlot` over its id column |
| WebServer.GravmonGatewayWebServer.HandleRemotePost | src/webserver.cpp:238-309 | the table is upserted with `HttpWrite`. The responses are [200, 422] for a free or known slot and [422] otherwise. |
| WebServer.GravmonGatewayWebServer.WriteFile | src/webserver.cpp:335-354 | empty data removes the file and succeeds; other data is stored URL-decoded exactly when the file opens |
| WebServer.GravmonGatewayWebServer.WriteIfGiven | src/webserver.cpp:189-191 | one guarded write yields `ApplyFormat` and reports `FormatStored` |
| WebServer.GravmonGatewayWebServer.HandleConfigFormatWrite | src/webserver.cpp:178-214 | the files become `FormatFiles` of the old ones, and success is reported exactly when some template was stored |
| WebServer.GravmonGatewayWebServer.HandleTestPush | src/webserver.cpp:216-236 | schedules the test for the requested target, resets its status, and acknowledges with the target's name |
| WebServer.GravmonGatewayWebServer.HandleTestPushStatus | src/webserver.cpp:311-333 | reports the task flag, success, enabled flag, code and the message for that state |
| WebServer.GravmonGatewayWebServer.RunTest | src/webserver.cpp:463-473 | the test payload is rendered from the fixed test reading and the chosen target's template |
| WebServer.GravmonGatewayWebServer.Loop | src/webserver.cpp:456-514 | without a scheduled test nothing changes. A scheduled test is sent to `TestSink`, enables the status exactly when a target matched, records the outcome and clears the task. |
| WebServer.GravmonGatewayWebServer.HandleStatus | src/webserver.cpp:144-172 | the device list is the BLE table's listing followed by the HTTP table's |
| Controller.LogValuesMatchLabels | src/main.cpp:239-247 | the logged values are in the units their labels name: SG or Plato, °C or °F |
| Controller.RenderVisitsEachSlotOnce | src/main.cpp:349-355 | the display walk is its own inverse, so it visits each of the 9 slots exactly once |
| Controller.LogRing.constructor | src/main.cpp:74-77 | empty history, index 0, redraw pending |
| Controller.LogRing.Add | src/main.cpp:244-251 | writes the line at the index, advances the index modulo 9 and sets the redraw flag |
| Controller.LogRing.Render | src/main.cpp:349-355 | shows 9 lines, newest first; line i is the i-th most recent entry, or blank |
| Controller.LogRing.Refresh | src/main.cpp:233-236 | redraws exactly when the flag was set, then clears it |
| Controller.NegativeResendNeverDue | src/main.cpp:291 | with a negative resend time no reading is ever due |
| Controller.PushedNotDue | src/main.cpp:291-300 | a reading just pushed is not due again at the same instant, and its values are kept |
| Controller.DueSlotsIff | src/main.cpp:288-302 | a reading is pushed exactly when it is in the table and due |
| Controller.NoRepushAtSameInstant | src/main.cpp:288-319 | after a pass nothing in the table is due at the same instant |
| Controller.PushedKeepsIds | src/main.cpp:300 | a pass keeps the table's id column |
| Controller.SendsForEmptyIff | src/main.cpp:288-302 | a pass sends nothing exactly when nothing is due or no target is configured |
| Controller.LogsFor | src/main.cpp:292 | one log line per due reading, carrying its id |
| Controller.ProcessSlot | src/main.cpp:289-301 | a due slot is logged, sent and marked pushed; any other slot is left alone |
| Controller.ProcessTable | src/main.cpp:288-302 | the table becomes `Pushed`, and the sends and log lines are those of the due readings in slot order |
| Controller.Gateway.constructor | src/main.cpp:74-77 | every part valid, the two tables distinct, the log empty |
| Controller.Gateway.AddLogEntry | src/main.cpp:239-252 | appends the line formatted with the configured units and sets the redraw flag |
| Controller.Gateway.RemotePost | src/webserver.cpp:238-309 | a remote post changes only the HTTP table |
| Controller.HeardBeaconUpdated | src/main.cpp:254-257 | a GravityMon iBeacon heard while the scan runs (already running, or started now), with a slot for its chip id, is marked updated in the BLE table the same `controller` pass pushes, whatever the queued connect sessions do |
| Controller.Gateway.ScanAndWait | src/main.cpp:256-257 | the BLE table becomes `AfterScan` of the old one: its `updated` flags cleared when a scanner exists and no scan was running (whether or not the new scan starts), the GravityMon readings heard while the scan runs stored in order, then the connect queue drained. The Tilt slots become `AfterScanTilt` in the same way. With a scanner the scan has stopped and the connect queue is empty; without one, nothing changes |
| Controller.Gateway.PushAll | src/main.cpp:285-319 | the BLE table and then the HTTP table are processed. Both become `Pushed`. The sends and log lines are the BLE ones followed by the HTTP ones. |
| Controller.Gateway.Run | src/main.cpp:254-320 | `controller`: scan, hear the advertisements on air, wait and drain the queue, then push both tables, with the combined sends, log and redraw flag. The BLE table pushed is `AfterScan` of the old one, so its flags are cleared when a scanner exists and no scan was running (whether or not the new scan starts) and the readings heard are stored. The Tilt slots become `AfterScanTilt`. With a scanner the scan has stopped and the connect queue is empty |
| Controller.Gateway.Loop | src/main.cpp:213-236 | the push-test step runs first: a pending test is cleared, records the transport's outcome, enables the push test when the target is known, and yields the test delivery; with no test pending the flags are kept and nothing is tested. Then `controller` stores the advertisements heard during its scan and pushes both tables (as in `Run`), with the same sends and log lines, the same Tilt flags, and the scan and queue state given with and without a scanner. Afterwards the redraw flag is clear. It redraws exactly when the flag was set or a line was logged, and shows the 9 most recent lines. |

## Left out

- The BLE stack (NimBLE) is not modelled. Three things arrive as parameters:
  - whether a scan starts (`startOk`);
  - each connect session, as an abstract `ConnectScenario` of the stack's answers;
  - each advertisement's fields.
- The scan interval and window settings in `init` and the 100 ms wait loop
  are not modelled.
- JSON deserialisation is not modelled. A document arrives parsed, or as a
  parse error.
  - ArduinoJson's coercion of mismatched types is reduced to: absent or
    mismatched gives "" / 0 / false.
  - `as<int>()` truncates a number toward zero.
- The templating engine's substitution and number rounding (the `DECIMALS_*`
  settings) are not modelled. A rendered payload is the template plus the
  placeholder values.
- HTTP, HTTPS and MQTT transport is not modelled. The outcome of a push
  test arrives as a parameter (`PushOutcome`).
- Request routing, authentication and response objects are not modelled.
- The other status fields of `webHandleStatus` (uptime and the like) are not
  modelled. Only the device list is.
- Config read, format read (`readFile`) and factory reset are not modelled.
- `float` is modelled as exact real arithmetic.
- LittleFS is not modelled. The template files are a map, and whether a file
  opens, and URL decoding, are parameters.
- The base classes `BaseConfig`, `BaseWebServer` and `BasePush` are not part
  of this model. The settings the core reads from them are plain fields:
  - mDNS name;
  - temperature format;
  - the five target flags.
- The device id (`getID()`, a `BaseConfig` member) arrives as the `deviceId`
  parameter of `TestReading`, `RunTest`, `GravmonGatewayWebServer.Loop` and
  `Gateway.Loop`.
- WiFi, its RSSI and the build information are parameters.
- The uptime counter, display drawing, LED, SD card, serial web socket,
  `setup()` and the WiFi-setup run mode are not modelled.
  - `setup()` covers the scan-time and active-scan hand-over at main.cpp
    194-198.
- The Tilt debug block of `controller` (compiled only with
  `ENABLE_TILT_SCANNING`) is not modelled.
- The clock is one `now` value for a whole controller pass, so `millis()`
  does not advance inside a pass.
- Advertisements arrive as a sequence, delivered in order between `scan`
  and `waitForScan` (`HearAll`). They are not interleaved with the connect
  sessions of `waitForScan` or with other code, and while a scan runs every
  advertisement given is heard (the scan's duration is not modelled).
- Controller.LogLineOf: the 60-character `snprintf` truncation and the text
  formatting of the line are not modelled. A line keeps its fields.
- The request key names of the format and push-test handlers are stand-in
  values, as are the six gateway settings keys. Their header is not part of
  this model. Only their being distinct is used.
- `NIMBLE_MAX_CONNECTIONS` is a stand-in value (3). It is a build setting.
- Bytes are 0..255. The signedness of `char` in `std::string` indexing and
  `int8_t` RSSI ranges are not modelled.
- BleScanner.BleScanner.OnResult: it requires an Eddystone advertisement to
  be long enough for the fixed offsets the firmware reads. The firmware does
  not check this and would read past the payload.
- WebServer.GravmonGatewayWebServer.Loop: when no target matches, nothing is
  sent and the firmware records the fresh push object's `getLastSuccess()` and
  `getLastCode()`. Their initial values are set by `BasePush`, which is not
  part of this model, so `outcome` stands for them in that case as well.
- BleScanner.BleScanner.ProcessTiltBeacon: it requires at least 4 bytes. Its
  only caller checks for 24.
- `deInit` and `onConnect` are not modelled. They are an empty callback and
  stack teardown.
