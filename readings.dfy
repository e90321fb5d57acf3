/** The reading record both sensor handlers keep as `latestSensorData` and, with
    a numeric timestamp, as entries of `sensorHistory`. */
module Readings {
  import opened Js

  datatype Reading = Reading(
    temperature: real,
    humidity: real,
    moisture: int,
    pumpActive: bool,
    timestamp: Stamp)

  /** What a POST body yields once its fields are read: the results of
      `parseFloat(temperature)`, `parseFloat(humidity)` and `parseInt(moisture)`
      (None for NaN), and the raw `pumpActive` field. */
  datatype Fields = Fields(
    temperature: Option<real>,
    humidity: Option<real>,
    moisture: Option<int>,
    pumpActive: Value)

  /** The record a handler module starts with, stamped when the module is loaded. */
  function Initial(loadTime: int): (r: Reading)
    ensures r.temperature == 0.0 && r.humidity == 0.0 && r.moisture == 0
    ensures !r.pumpActive
    ensures r.timestamp == IsoString(loadTime)
  {
    Reading(0.0, 0.0, 0, false, IsoString(loadTime))
  }

  /** `{ ...latest, timestamp: Date.now() }`: the history entry for a reading. */
  function HistoryEntry(latest: Reading, now: int): (e: Reading)
    ensures e.temperature == latest.temperature && e.humidity == latest.humidity
    ensures e.moisture == latest.moisture && e.pumpActive == latest.pumpActive
    ensures e.timestamp == EpochMillis(now)
  {
    latest.(timestamp := EpochMillis(now))
  }
}
