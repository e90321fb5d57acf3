# Irrigation monitor request handlers, modelled in Dafny

This project models the server-side state of a small irrigation-monitoring demo.
A microcontroller POSTs temperature, humidity and soil-moisture readings. The
handlers keep the latest reading and a bounded history in process memory. A
browser dashboard reads them back and switches a water pump.

Each handler module becomes a class whose fields are its module-level
variables. In the four `api/` handlers each request kind is a branch of a
`Handle` method that returns a status code and a reply value. `Server.SensorData`
has no `Handle`: its two routes are the methods `PostClimate` and `PostSoil`.

- `ArduinoSensors.SensorIngest` (api/arduino/sensors.js): device ingest. The pump
  flag is derived by the rule `moisture < 40`. The latest record is replaced. The
  reading is pushed onto a history that is cut back to its newest 24 entries.
- `Sensors.SensorStore` (api/sensors.js): the same ingest and 24-entry history,
  but the pump flag is `Boolean(pumpActive)` from the body. GET overlays
  `moistureHistory`, the moisture column of the history.
- `ArduinoPump.PumpCommand` (api/arduino/pump.js): a level-triggered `"ON"`/`"OFF"`
  command that the device polls. Only those two strings are accepted.
- `Pump.PumpSwitch` (api/pump.js): a pump status that stores whatever `status`
  the JSON body holds.
- `Server.SensorData` (server.js): the climate and soil endpoints. Each checks
  `typeof … === 'number'` before any change and replaces only its own sub-record.

Shared modules: `Js` holds the JavaScript semantics the handlers use
(destructuring, `typeof`, `Boolean(...)`, the `|| 0` fallback, time stamps).
`Http` holds the verbs and the status codes 200, 400 (section 15.5.1 of RFC
9110) and 405 (section 15.5.6 of RFC 9110). `History` holds the 24-entry buffer
and its lemmas. `Readings` holds the record both sensor handlers store.

Behaviour of the code worth knowing:

- Ingest never rejects a non-numeric field: both sensor handlers coerce a field
  `parseInt`/`parseFloat` cannot read to 0. A POST gets 400 only when the
  handler throws before changing anything: the body is null or undefined, or a
  field's string conversion throws (an object such as `{"toString": 0}`).
- api/pump.js stores `status` verbatim with no check; only api/arduino/pump.js
  validates its command.
- A reading whose moisture is missing or unreadable coerces to 0 and so switches
  the pump ON in api/arduino/sensors.js (`ArduinoSensors.Ingested`).
- In api/pump.js the JSON text `null` parses but then fails destructuring. It
  therefore also gets 400 "Invalid JSON" (`Pump.StatusOf`).

## Model

| member | source | states |
|---|---|---|
| `Js.Destructure` | api/arduino/pump.js:28 | destructuring a body throws exactly on null and undefined; on an object it reads the own field, on any other value it reads undefined (also used for `status` at api/pump.js line 32) |
| `Js.Truthy` | api/sensors.js:47 | `Boolean(v)` is false exactly for undefined, null, false, 0 and the empty string (also the `status ? 'ON' : 'OFF'` test at api/pump.js lines 36 and 40) |
| `Js.TypeOf` | server.js:7 | `typeof v` is "number" exactly for numbers, and "object" for null, arrays and objects |
| `Js.IntOrZero` | api/arduino/sensors.js:33 | the 0 fallback after `parseInt` keeps every integer `parseInt` returns and turns NaN into 0 |
| `Js.NumberOrZero` | api/arduino/sensors.js:38-39 | the 0 fallback after `parseFloat` keeps every number `parseFloat` returns and turns NaN into 0 |
| `Readings.Initial` | api/arduino/sensors.js:4-10 | the starting record has temperature, humidity and moisture 0, the pump off, and an ISO stamp at load time (the same record starts api/sensors.js, lines 4-11) |
| `History.Trim` | api/arduino/sensors.js:52-54 | cutting back with `slice(-24)` keeps exactly the newest min(n, 24) entries, in order |
| `History.Push` | api/arduino/sensors.js:46-54 | after push-and-trim the new entry is last; below the cap nothing is dropped; at the cap exactly the oldest entry is evicted |
| `History.ReplayKeepsNewest` | api/arduino/sensors.js:46-54 | after any run of accepted readings, the history is the newest min(n, 24) of them in arrival order |
| `History.ReplayBounded` | api/sensors.js:58-60 | the history never holds more than 24 entries, and holds min(n, 24) after n readings |
| `History.TwentyFiveReadings` | api/arduino/sensors.js:51-54 | after 25 readings into an empty history, it holds readings 2 to 25, so its oldest entry is the 2nd reading |
| `History.LastOfLast` | api/sensors.js:57-60 | trimming before later pushes does not change what a later trim keeps |
| `Readings.HistoryEntry` | api/arduino/sensors.js:46-49 | a history entry carries the latest record's temperature, humidity, moisture and pump flag, with a numeric `Date.now()` stamp |
| `ArduinoSensors.NeedsWater` | api/arduino/sensors.js:34 | on integer moisture the rule waters exactly at 39 and below |
| `ArduinoSensors.Ingested` | api/arduino/sensors.js:33-43 | the stored moisture is the coerced `parseInt` value; the pump flag is true exactly when that value is below 40 (a NaN moisture counts as 0); temperature and humidity fall back to 0 |
| `ArduinoSensors.ThresholdBoundary` | api/arduino/sensors.js:34 | moisture 39 switches the pump on, moisture 40 does not |
| `ArduinoSensors.PumpFlagFromMoistureOnly` | api/arduino/sensors.js:28-34 | a `pumpActive` field sent by the client has no effect on the stored record |
| `ArduinoSensors.SensorIngest.constructor` | api/arduino/sensors.js:4-13 | the module starts with zero readings, pump off, stamped at load time, and an empty history |
| `ArduinoSensors.SensorIngest.Post` | api/arduino/sensors.js:26-70 | a body that throws before any change (missing, or a field whose string conversion throws) gives 400 and changes nothing; otherwise the latest record is replaced wholesale, the history gets its copy pushed and trimmed, the history stays within 24, and the reply is 200 with the new record |
| `ArduinoSensors.SensorIngest.Handle` | api/arduino/sensors.js:15-74 | OPTIONS gives an empty 200 and changes nothing; POST ingests; every other method, GET included, gives 405 and changes nothing |
| `Sensors.Moistures` | api/sensors.js:32 | the moisture column has one entry per history entry, in the same order |
| `Sensors.Project` | api/sensors.js:30-33 | the GET body has every field of the latest record and the history's moisture values, oldest first |
| `Sensors.Posted` | api/sensors.js:43-49 | the stored pump flag is `Boolean(pumpActive)` from the body, with no threshold; temperature, humidity and moisture are coerced with the 0 fallback |
| `Sensors.MoisturesOfLast` | api/sensors.js:32 | taking the moisture column commutes with keeping the newest entries |
| `Sensors.MoistureHistoryOfReplay` | api/sensors.js:52-60 | after any run of POSTs, `moistureHistory` is the moisture of the newest (at most 24) readings in arrival order |
| `Sensors.SameRecordButPumpFlag` | api/sensors.js:43-49 | the two sensor handlers store the same record for the same body, except for the pump flag |
| `Sensors.SensorStore.constructor` | api/sensors.js:4-14 | the module starts with zero readings, pump off, stamped at load time, and an empty history |
| `Sensors.SensorStore.Get` | api/sensors.js:28-35 | GET answers 200 with the projected record, changes nothing, and `moistureHistory` has at most 24 entries |
| `Sensors.SensorStore.Post` | api/sensors.js:37-67 | a body that throws before any change (missing, or a field whose string conversion throws) gives 400 and changes nothing; otherwise the latest record is replaced and the history is pushed and trimmed within 24 |
| `Sensors.SensorStore.Handle` | api/sensors.js:16-72 | OPTIONS gives an empty 200; GET reads; POST stores; every other method gives 405; only POST with a body changes state |
| `ArduinoPump.Decide` | api/arduino/pump.js:28-30 | a POST is accepted exactly when `command` is the string "ON" or "OFF", and then that string is the command; a null or undefined body makes destructuring throw |
| `ArduinoPump.CommandAfter` | api/arduino/pump.js:30-31 | an accepted command replaces the current one, anything else keeps it, and the command stays one of "ON"/"OFF" |
| `ArduinoPump.CommandIdempotent` | api/arduino/pump.js:30-31 | posting the same body twice leaves the command as after one post |
| `ArduinoPump.SetMessage` | api/arduino/pump.js:38 | the success message is "Pump command set to " followed by exactly the command |
| `ArduinoPump.PumpCommand.constructor` | api/arduino/pump.js:4-5 | the command starts as "OFF", stamped at load time |
| `ArduinoPump.PumpCommand.Get` | api/arduino/pump.js:18-23 | GET answers 200 with the current command, always "ON" or "OFF", and changes nothing |
| `ArduinoPump.PumpCommand.Post` | api/arduino/pump.js:25-52 | "ON" or "OFF" is stored and echoed with a new command time; any other value, or a missing body, gives 400 and leaves command and time unchanged |
| `ArduinoPump.PumpCommand.Handle` | api/arduino/pump.js:7-57 | OPTIONS gives an empty 200; GET reads; POST sets; every other method gives 405 and changes nothing |
| `Pump.StatusOf` | api/pump.js:31-32 | reading `status` from the parsed body fails exactly when the text is not JSON or is JSON null; otherwise it is the body's own `status` field, or undefined |
| `Pump.TurnedMessage` | api/pump.js:36-40 | the reply message says ON or OFF by the truthiness of the stored value |
| `Pump.PumpSwitch.constructor` | api/pump.js:1 | the status starts as `false` |
| `Pump.PumpSwitch.Get` | api/pump.js:14-21 | GET answers 200 with the current status and changes nothing |
| `Pump.PumpSwitch.Post` | api/pump.js:30-49 | a body that fails to parse or to destructure gives 400 "Invalid JSON" and changes nothing; otherwise `status` is stored verbatim and echoed |
| `Pump.PumpSwitch.Handle` | api/pump.js:3-54 | OPTIONS gives an empty 200; GET reads; POST stores; every other method gives 405 and changes nothing |
| `Server.ClimateFrom` | server.js:5-15 | a climate record exists exactly when both temperature and humidity are numbers; it holds exactly those two values and a timestamp, with no pressure |
| `Server.SoilFrom` | server.js:23-32 | a soil record exists exactly when moisture is a number; it holds that value and a timestamp |
| `Server.SensorData.constructor` | server.js:11 | `sensorData`, which the file uses but never declares, is taken to start with no climate and no soil record |
| `Server.SensorData.PostClimate` | server.js:4-19 | a non-number field gives 400 and changes nothing; otherwise `climate` is replaced and the reply is 200 `success`; `soil` is never touched |
| `Server.SensorData.PostSoil` | server.js:22-36 | a non-number moisture gives 400 and changes nothing; otherwise `soil` is replaced and the reply is 200 `success`; `climate` is never touched |

## Left out

- CORS `setHeader` calls and all console logging: side effects only.
- `updateMainSensorData` in api/arduino/sensors.js: a logging stub with no effect on state.
- `parseInt` and `parseFloat` are inputs (None for NaN), not parsers. Temperatures, humidities and numbers are reals: no floating-point rounding, NaN, infinities or negative zero.
- Clocks are parameters. The two clock reads in one POST (`new Date()` and `Date.now()`) are taken as one instant. ISO-8601 formatting is not modelled; a stamp records which form was stored.
- `Fields` holds only what `parseInt`/`parseFloat` returned. A coercion that throws (a field whose string conversion throws) is represented, like a null or undefined body, by `body == None` in `ArduinoSensors.SensorIngest.Post` and `Sensors.SensorStore.Post`.
- The text of the TypeError a handler catches depends on the JavaScript engine. The 400 replies carry no message for it.
- Destructuring reads an object's own fields only. Inherited properties and the `length` of strings and arrays read as undefined. The handlers only read `temperature`, `humidity`, `moisture`, `pumpActive`, `command` and `status`, which are none of those.
- JSON serialisation of replies is not modelled. One example: a stored `undefined` status is left out of the JSON text.
- api/pump.js reads the request body across `data`/`end` events. The model takes what `JSON.parse` made of the whole body, and the reply is produced in the same step.
- Request methods are seven representative methods (OPTIONS, GET, POST, PUT, PATCH, DELETE, HEAD); every method other than OPTIONS, GET and POST, CONNECT and TRACE included, takes the same 405 branch.
- server.js uses an `app` and a `sensorData` it never declares. Express routing is not modelled. The state starts with no climate and no soil record. The body is taken to be a parsed JSON object. A request with no parsed body would make destructuring throw inside Express, and that case is not modelled.
- The initial record in api/sensors.js also has `moistureHistory: []`. GET always overrides that field and POST drops it, so it is never observable and is not stored.
- script.js and public/script.js: browser dashboard code (DOM updates, polling timers, random mock values).
- api/weather.js: a proxy to a public forecast API over the network, with floating-point fields.
