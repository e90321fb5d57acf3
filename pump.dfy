/** The dashboard-facing pump switch: GET reports the stored status, POST
    stores whatever `status` the JSON body holds. */
module Pump {
  import opened Js
  import opened Http

  const INVALID_JSON: string := "Invalid JSON"

  datatype Reply =
    | NoBody                                      // OPTIONS: an empty 200
    | Status(pumpStatus: Value)                   // GET: `{ success: true, pumpStatus }`
    | Turned(message: string, pumpStatus: Value)  // POST: `{ success: true, message, pumpStatus }`
    | BadJson(error: string)                      // `{ success: false, error: 'Invalid JSON' }`
    | NotAllowed(error: string)

  /** `const { status } = JSON.parse(body)`, given what `JSON.parse` returned
      (None when it threw). None when either step throws: the text is not JSON,
      or it is the JSON `null`. */
  function StatusOf(parsed: Option<Value>): (r: Option<Value>)
    ensures r.None? <==> parsed.None? || parsed.value.Null? || parsed.value.Undefined?
    ensures r.Some? && parsed.value.Obj? ==> r.value == Field(parsed.value.props, "status")
    ensures r.Some? && !parsed.value.Obj? ==> r.value == Undefined
  {
    match parsed
    case None => None
    case Some(v) => Destructure(v, "status")
  }

  /** The message reports the truthiness of the stored value, not its type. */
  function TurnedMessage(status: Value): (m: string)
    ensures Truthy(status) ==> m == "Water pump turned ON"
    ensures !Truthy(status) ==> m == "Water pump turned OFF"
  {
    "Water pump turned " + (if Truthy(status) then "ON" else "OFF")
  }

  class PumpSwitch {
    /** Whatever the last accepted POST sent, without any type check. */
    var pumpStatus: Value

    constructor ()
      ensures pumpStatus == Bool(false)
    {
      pumpStatus := Bool(false);
    }

    /** GET: reports the stored status and changes nothing. */
    method Get() returns (r: Response<Reply>)
      ensures r == Response(OK, Status(pumpStatus))
    {
      r := Response(OK, Status(pumpStatus));
    }

    /** POST, once the request body has been read: `parsed` is what `JSON.parse`
        made of it, None when it threw. */
    method Post(parsed: Option<Value>) returns (r: Response<Reply>)
      modifies this
      ensures StatusOf(parsed).None? ==> r == Response(BAD_REQUEST, BadJson(INVALID_JSON)) && unchanged(this)
      ensures StatusOf(parsed).Some? ==>
        pumpStatus == StatusOf(parsed).value &&
        r == Response(OK, Turned(TurnedMessage(pumpStatus), pumpStatus))
    {
      match parsed
      case None =>
        r := Response(BAD_REQUEST, BadJson(INVALID_JSON));
      case Some(v) =>
        match Destructure(v, "status")
        case None =>
          r := Response(BAD_REQUEST, BadJson(INVALID_JSON));
        case Some(status) =>
          pumpStatus := status;
          r := Response(OK, Turned(TurnedMessage(status), status));
    }

    /** The whole handler: OPTIONS is answered empty, GET reads, POST stores, and
        any other method is refused with 405. */
    method Handle(verb: Verb, parsed: Option<Value>) returns (r: Response<Reply>)
      modifies this
      ensures verb.Options? ==> r == Response(OK, NoBody) && unchanged(this)
      ensures verb.Get? ==> r == Response(OK, Status(pumpStatus)) && unchanged(this)
      ensures verb.Post? && StatusOf(parsed).None? ==>
        r == Response(BAD_REQUEST, BadJson(INVALID_JSON)) && unchanged(this)
      ensures verb.Post? && StatusOf(parsed).Some? ==>
        pumpStatus == StatusOf(parsed).value &&
        r == Response(OK, Turned(TurnedMessage(pumpStatus), pumpStatus))
      ensures !verb.Options? && !verb.Get? && !verb.Post? ==>
        r == Response(METHOD_NOT_ALLOWED, NotAllowed(NOT_ALLOWED_ERROR)) && unchanged(this)
    {
      if verb.Options? {
        r := Response(OK, NoBody);
      } else if verb.Get? {
        r := Get();
      } else if verb.Post? {
        r := Post(parsed);
      } else {
        r := Response(METHOD_NOT_ALLOWED, NotAllowed(NOT_ALLOWED_ERROR));
      }
    }
  }
}
