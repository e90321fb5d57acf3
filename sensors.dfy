/** The dashboard-facing sensor store: POST replaces the latest record (taking
    the pump flag from the body as given) and appends to a 24-entry history; GET
    returns the latest record with the history's moisture column overlaid. */
module Sensors {
  import opened Js
  import opened Http
  import opened Readings
  import History
  import ArduinoSensors

  const STORED_MESSAGE: string := "Data received"

  /** The GET payload: the latest record spread out, with `moistureHistory` set
      from the history. */
  datatype Snapshot = Snapshot(
    temperature: real,
    humidity: real,
    moisture: int,
    pumpActive: bool,
    timestamp: Stamp,
    moistureHistory: seq<int>)

  datatype Reply =
    | NoBody                    // OPTIONS: an empty 200
    | Current(data: Snapshot)   // GET
    | Stored(message: string)   // `{ success: true, message }`
    | IngestFailed              // `{ success: false, error }` for a TypeError thrown before any change
    | NotAllowed(error: string)

  /** `sensorHistory.map(reading => reading.moisture)`. */
  function Moistures(h: seq<Reading>): (m: seq<int>)
    ensures |m| == |h|
    ensures forall i :: 0 <= i < |h| ==> m[i] == h[i].moisture
  {
    if h == [] then [] else [h[0].moisture] + Moistures(h[1..])
  }

  /** The GET response body: every field of the latest record, and the moisture
      values of the history, oldest first. */
  function Project(latest: Reading, history: seq<Reading>): (s: Snapshot)
    ensures s.temperature == latest.temperature && s.humidity == latest.humidity
    ensures s.moisture == latest.moisture && s.pumpActive == latest.pumpActive
    ensures s.timestamp == latest.timestamp
    ensures |s.moistureHistory| == |history|
    ensures forall i :: 0 <= i < |history| ==> s.moistureHistory[i] == history[i].moisture
  {
    Snapshot(latest.temperature, latest.humidity, latest.moisture, latest.pumpActive,
             latest.timestamp, Moistures(history))
  }

  /** The record a POST with these fields makes the latest reading: the pump flag
      is `Boolean(pumpActive)` from the body, whatever the moisture. */
  function Posted(f: Fields, now: int): (r: Reading)
    ensures r.pumpActive == Truthy(f.pumpActive)
    ensures r.moisture == (if f.moisture.Some? then f.moisture.value else 0)
    ensures f.temperature.Some? ==> r.temperature == f.temperature.value
    ensures f.humidity.Some? ==> r.humidity == f.humidity.value
    ensures f.temperature.None? ==> r.temperature == 0.0
    ensures f.humidity.None? ==> r.humidity == 0.0
    ensures r.timestamp == IsoString(now)
  {
    Reading(NumberOrZero(f.temperature), NumberOrZero(f.humidity), IntOrZero(f.moisture),
            Truthy(f.pumpActive), IsoString(now))
  }

  /** Taking the moisture column commutes with keeping the newest entries. */
  lemma {:induction false} MoisturesOfLast(h: seq<Reading>, n: nat)
    ensures Moistures(History.Last(h, n)) == History.Last(Moistures(h), n)
  {
    var a, b := Moistures(History.Last(h, n)), History.Last(Moistures(h), n);
    assert |a| == |b|;
    forall i | 0 <= i < |a|
      ensures a[i] == b[i]
    {
      assert History.Last(h, n)[i] == h[|h| - |a| + i];
    }
  }

  /** After any run of POSTs into an empty history, GET's `moistureHistory` is
      the moisture of the newest (at most 24) readings, in arrival order. */
  lemma {:induction false} MoistureHistoryOfReplay(entries: seq<Reading>)
    ensures Moistures(History.Replay([], entries)) == History.Last(Moistures(entries), History.CAPACITY)
    ensures |Moistures(History.Replay([], entries))| <= History.CAPACITY
  {
    History.ReplayKeepsNewest([], entries);
    assert [] + entries == entries;
    MoisturesOfLast(entries, History.CAPACITY);
  }

  /** The two sensor handlers store the same record except for the pump flag:
      this one copies the client's, the device endpoint applies the threshold rule. */
  lemma SameRecordButPumpFlag(f: Fields, now: int)
    ensures Posted(f, now).(pumpActive := false) == ArduinoSensors.Ingested(f, now).(pumpActive := false)
  {
  }

  class SensorStore {
    var latest: Reading
    var history: seq<Reading>

    ghost predicate Valid()
      reads this
    {
      |history| <= History.CAPACITY
    }

    /** The module's initial record also carries `moistureHistory: []`; GET
        always overrides that field and POST drops it, so it is not stored. */
    constructor (loadTime: int)
      ensures Valid()
      ensures latest == Initial(loadTime) && history == []
    {
      latest := Initial(loadTime);
      history := [];
    }

    /** GET: reads the state and changes nothing. */
    method Get() returns (r: Response<Reply>)
      requires Valid()
      ensures r == Response(OK, Current(Project(latest, history)))
      ensures |r.body.data.moistureHistory| <= History.CAPACITY
    {
      r := Response(OK, Current(Project(latest, history)));
    }

    /** POST: `body` is None when the handler throws before changing anything:
        `req.body` is null or undefined, or the string conversion inside
        `parseFloat`/`parseInt` of a field throws. */
    method Post(body: Option<Fields>, now: int) returns (r: Response<Reply>)
      requires Valid()
      modifies this
      ensures Valid()
      ensures body.None? ==> r == Response(BAD_REQUEST, IngestFailed) && unchanged(this)
      ensures body.Some? ==>
        latest == Posted(body.value, now) &&
        history == History.Push(old(history), HistoryEntry(latest, now)) &&
        r == Response(OK, Reply.Stored(STORED_MESSAGE))
    {
      match body
      case None =>
        r := Response(BAD_REQUEST, IngestFailed);
      case Some(f) =>
        latest := Posted(f, now);
        history := history + [HistoryEntry(latest, now)];
        if |history| > History.CAPACITY {
          history := history[|history| - History.CAPACITY..];
        }
        r := Response(OK, Reply.Stored(STORED_MESSAGE));
    }

    /** The whole handler: OPTIONS is answered empty, GET reads, POST stores,
        and any other method is refused with 405. */
    method Handle(verb: Verb, body: Option<Fields>, now: int) returns (r: Response<Reply>)
      requires Valid()
      modifies this
      ensures Valid()
      ensures verb.Options? ==> r == Response(OK, NoBody) && unchanged(this)
      ensures verb.Get? ==> r == Response(OK, Current(Project(latest, history))) && unchanged(this)
      ensures verb.Post? && body.None? ==>
        r == Response(BAD_REQUEST, IngestFailed) && unchanged(this)
      ensures verb.Post? && body.Some? ==>
        latest == Posted(body.value, now) &&
        history == History.Push(old(history), HistoryEntry(latest, now)) &&
        r == Response(OK, Reply.Stored(STORED_MESSAGE))
      ensures !verb.Options? && !verb.Get? && !verb.Post? ==>
        r == Response(METHOD_NOT_ALLOWED, NotAllowed(NOT_ALLOWED_ERROR)) && unchanged(this)
    {
      if verb.Options? {
        r := Response(OK, NoBody);
      } else if verb.Get? {
        r := Get();
      } else if verb.Post? {
        r := Post(body, now);
      } else {
        r := Response(METHOD_NOT_ALLOWED, NotAllowed(NOT_ALLOWED_ERROR));
      }
    }
  }
}
