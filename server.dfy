/** The Express-style climate and soil endpoints: each checks the type of its
    fields before touching anything, then replaces only its own part of the
    shared `sensorData` object. */
module Server {
  import opened Js
  import opened Http

  const SUCCESS: string := "success"
  const INVALID_FORMAT: string := "Invalid data format"
  const INVALID_MOISTURE: string := "Invalid moisture value"

  /** No pressure field: the climate endpoint stores temperature and humidity only. */
  datatype Climate = Climate(temperature: real, humidity: real, timestamp: Stamp)

  datatype Soil = Soil(moisture: real, timestamp: Stamp)

  datatype Reply =
    | Success(status: string)   // `{ status: 'success' }`
    | Invalid(error: string)    // `{ error }`

  /** The climate record a body yields, None unless both fields are numbers. */
  function ClimateFrom(body: map<string, Value>, now: int): (c: Option<Climate>)
    ensures c.Some? <==>
      TypeOf(Field(body, "temperature")) == "number" && TypeOf(Field(body, "humidity")) == "number"
    ensures c.Some? ==>
      Number(c.value.temperature) == Field(body, "temperature") &&
      Number(c.value.humidity) == Field(body, "humidity") &&
      c.value.timestamp == DateObject(now)
  {
    var temperature, humidity := Field(body, "temperature"), Field(body, "humidity");
    if TypeOf(temperature) != "number" || TypeOf(humidity) != "number" then None
    else Some(Climate(temperature.n, humidity.n, DateObject(now)))
  }

  /** The soil record a body yields, None unless the moisture is a number. */
  function SoilFrom(body: map<string, Value>, now: int): (s: Option<Soil>)
    ensures s.Some? <==> TypeOf(Field(body, "moisture")) == "number"
    ensures s.Some? ==> Number(s.value.moisture) == Field(body, "moisture") && s.value.timestamp == DateObject(now)
  {
    var moisture := Field(body, "moisture");
    if TypeOf(moisture) != "number" then None else Some(Soil(moisture.n, DateObject(now)))
  }

  class SensorData {
    var climate: Option<Climate>
    var soil: Option<Soil>

    /** Nothing has been received yet. */
    constructor ()
      ensures climate == None && soil == None
    {
      climate := None;
      soil := None;
    }

    /** POST /api/climate. `body` holds the parsed JSON object's own fields. */
    method PostClimate(body: map<string, Value>, now: int) returns (r: Response<Reply>)
      modifies this`climate
      ensures soil == old(soil)
      ensures ClimateFrom(body, now).None? ==>
        r == Response(BAD_REQUEST, Invalid(INVALID_FORMAT)) && climate == old(climate)
      ensures ClimateFrom(body, now).Some? ==>
        climate == ClimateFrom(body, now) && r == Response(OK, Success(SUCCESS))
    {
      var c := ClimateFrom(body, now);
      if c.None? {
        return Response(BAD_REQUEST, Invalid(INVALID_FORMAT));
      }
      climate := c;
      r := Response(OK, Success(SUCCESS));
    }

    /** POST /api/soil. `body` holds the parsed JSON object's own fields. */
    method PostSoil(body: map<string, Value>, now: int) returns (r: Response<Reply>)
      modifies this`soil
      ensures climate == old(climate)
      ensures SoilFrom(body, now).None? ==>
        r == Response(BAD_REQUEST, Invalid(INVALID_MOISTURE)) && soil == old(soil)
      ensures SoilFrom(body, now).Some? ==>
        soil == SoilFrom(body, now) && r == Response(OK, Success(SUCCESS))
    {
      var s := SoilFrom(body, now);
      if s.None? {
        return Response(BAD_REQUEST, Invalid(INVALID_MOISTURE));
      }
      soil := s;
      r := Response(OK, Success(SUCCESS));
    }
  }
}
