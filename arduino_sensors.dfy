/** The device-facing ingest endpoint: the microcontroller POSTs a reading, the
    handler decides the pump flag from the soil moisture, replaces the latest
    record and appends to a 24-entry history. */
module ArduinoSensors {
  import opened Js
  import opened Http
  import opened Readings
  import History

  /** The auto-pump rule fires strictly below this moisture level. */
  const THRESHOLD: int := 40

  const RECEIVED_MESSAGE: string := "Sensor data received successfully"

  datatype Reply =
    | NoBody                                    // OPTIONS: an empty 200
    | Received(message: string, data: Reading)  // `{ success: true, message, data }`
    | IngestFailed                              // `{ success: false, error }` for a TypeError thrown before any change
    | NotAllowed(error: string)

  /** The auto-pump rule: no hysteresis, just a strict comparison. */
  predicate NeedsWater(moisture: int)
    ensures NeedsWater(moisture) <==> moisture <= 39
  {
    moisture < THRESHOLD
  }

  /** The record a POST with these fields makes the latest reading. The pump
      flag comes from the coerced moisture only; a NaN moisture reads as 0 and
      so switches the pump on. The body's own `pumpActive` is never read. */
  function Ingested(f: Fields, now: int): (r: Reading)
    ensures r.moisture == (if f.moisture.Some? then f.moisture.value else 0)
    ensures r.pumpActive <==> f.moisture.None? || f.moisture.value < 40
    ensures f.temperature.Some? ==> r.temperature == f.temperature.value
    ensures f.humidity.Some? ==> r.humidity == f.humidity.value
    ensures f.temperature.None? ==> r.temperature == 0.0
    ensures f.humidity.None? ==> r.humidity == 0.0
    ensures r.timestamp == IsoString(now)
  {
    var level := IntOrZero(f.moisture);
    Reading(NumberOrZero(f.temperature), NumberOrZero(f.humidity), level, NeedsWater(level), IsoString(now))
  }

  /** The rule's boundary is exclusive: 39 waters, 40 does not. */
  lemma ThresholdBoundary(f: Fields, now: int)
    ensures f.moisture == Some(39) ==> Ingested(f, now).pumpActive
    ensures f.moisture == Some(40) ==> !Ingested(f, now).pumpActive
  {
  }

  /** The pump flag a client sends is ignored: only the moisture decides. */
  lemma PumpFlagFromMoistureOnly(f: Fields, v: Value, now: int)
    ensures Ingested(f.(pumpActive := v), now) == Ingested(f, now)
  {
  }

  class SensorIngest {
    var latest: Reading
    var history: seq<Reading>

    ghost predicate Valid()
      reads this
    {
      |history| <= History.CAPACITY
    }

    constructor (loadTime: int)
      ensures Valid()
      ensures latest == Initial(loadTime) && history == []
    {
      latest := Initial(loadTime);
      history := [];
    }

    /** POST: `body` is None when the handler throws before changing anything:
        `req.body` is null or undefined, so the destructuring throws, or the
        string conversion inside `parseInt`/`parseFloat` of a field throws. */
    method Post(body: Option<Fields>, now: int) returns (r: Response<Reply>)
      requires Valid()
      modifies this
      ensures Valid()
      ensures body.None? ==>
        r == Response(BAD_REQUEST, IngestFailed) && unchanged(this)
      ensures body.Some? ==>
        latest == Ingested(body.value, now) &&
        history == History.Push(old(history), HistoryEntry(latest, now)) &&
        r == Response(OK, Received(RECEIVED_MESSAGE, latest))
      ensures body.Some? ==> history[|history| - 1] == HistoryEntry(latest, now)
    {
      match body
      case None =>
        r := Response(BAD_REQUEST, IngestFailed);
      case Some(f) =>
        latest := Ingested(f, now);
        history := history + [HistoryEntry(latest, now)];
        if |history| > History.CAPACITY {
          history := history[|history| - History.CAPACITY..];
        }
        r := Response(OK, Received(RECEIVED_MESSAGE, latest));
    }

    /** The whole handler: OPTIONS is answered empty, POST ingests, and every
        other method, GET included, is refused with 405. */
    method Handle(verb: Verb, body: Option<Fields>, now: int) returns (r: Response<Reply>)
      requires Valid()
      modifies this
      ensures Valid()
      ensures verb.Options? ==> r == Response(OK, NoBody) && unchanged(this)
      ensures verb.Post? && body.None? ==>
        r == Response(BAD_REQUEST, IngestFailed) && unchanged(this)
      ensures verb.Post? && body.Some? ==>
        latest == Ingested(body.value, now) &&
        history == History.Push(old(history), HistoryEntry(latest, now)) &&
        r == Response(OK, Received(RECEIVED_MESSAGE, latest))
      ensures !verb.Options? && !verb.Post? ==>
        r == Response(METHOD_NOT_ALLOWED, NotAllowed(NOT_ALLOWED_ERROR)) && unchanged(this)
    {
      if verb.Options? {
        r := Response(OK, NoBody);
      } else if verb.Post? {
        r := Post(body, now);
      } else {
        r := Response(METHOD_NOT_ALLOWED, NotAllowed(NOT_ALLOWED_ERROR));
      }
    }
  }
}
