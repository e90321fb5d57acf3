/** The device-facing pump command channel: a level-triggered command that the
    microcontroller polls with GET and the web interface sets with POST. */
module ArduinoPump {
  import opened Js
  import opened Http

  const ON: string := "ON"
  const OFF: string := "OFF"
  const INVALID_COMMAND: string := "Invalid command. Use ON or OFF"

  predicate IsCommand(c: string)
  {
    c == ON || c == OFF
  }

  datatype Reply =
    | NoBody                                        // OPTIONS: an empty 200
    | Current(command: string, timestamp: Stamp)    // GET: `{ command, timestamp }`
    | CommandSet(command: string, message: string)  // `{ success: true, command, message }`
    | InvalidCommand(error: string)                 // `{ success: false, error }` for a value other than ON/OFF
    | CommandFailed                                 // `{ success: false, error }` for the TypeError a missing body raises
    | NotAllowed(error: string)

  /** How a POST body is classified: destructuring throws, the command is not
      exactly the string "ON" or "OFF", or it is accepted. */
  datatype Decision = Malformed | Rejected | Accepted(command: string)

  function Decide(body: Value): (d: Decision)
    ensures d.Malformed? <==> body.Undefined? || body.Null?
    ensures d.Accepted? <==>
      Destructure(body, "command") == Some(Str(ON)) || Destructure(body, "command") == Some(Str(OFF))
    ensures d.Accepted? ==> IsCommand(d.command) && Destructure(body, "command") == Some(Str(d.command))
  {
    match Destructure(body, "command")
    case None => Malformed
    case Some(c) => if c == Str(ON) || c == Str(OFF) then Accepted(c.s) else Rejected
  }

  /** The command in force after a POST with `body`: the posted one when it is
      accepted, the current one otherwise. */
  function CommandAfter(current: string, body: Value): (c: string)
    ensures IsCommand(current) ==> IsCommand(c)
    ensures Decide(body).Accepted? ==> c == Decide(body).command
    ensures !Decide(body).Accepted? ==> c == current
  {
    match Decide(body)
    case Accepted(command) => command
    case _ => current
  }

  /** The command is a level, not an edge: posting the same body again changes nothing more. */
  lemma CommandIdempotent(current: string, body: Value)
    ensures CommandAfter(CommandAfter(current, body), body) == CommandAfter(current, body)
  {
  }

  /** "Pump command set to " followed by the command itself. */
  function SetMessage(command: string): (m: string)
    ensures |m| == |"Pump command set to "| + |command|
    ensures m[..|"Pump command set to "|] == "Pump command set to "
    ensures m[|"Pump command set to "|..] == command
  {
    "Pump command set to " + command
  }

  class PumpCommand {
    var command: string
    var lastCommandTime: int

    ghost predicate Valid()
      reads this
    {
      IsCommand(command)
    }

    /** The pump starts OFF; the command time is the module's load time. */
    constructor (loadTime: int)
      ensures Valid()
      ensures command == OFF && lastCommandTime == loadTime
    {
      command := OFF;
      lastCommandTime := loadTime;
    }

    /** GET: the device reads the command in force; nothing changes. */
    method Get(now: int) returns (r: Response<Reply>)
      requires Valid()
      ensures r == Response(OK, Current(command, IsoString(now)))
      ensures IsCommand(r.body.command)
    {
      r := Response(OK, Current(command, IsoString(now)));
    }

    /** POST: only the exact strings "ON" and "OFF" are taken; anything else is
        refused with 400 and leaves both the command and its time alone. */
    method Post(body: Value, now: int) returns (r: Response<Reply>)
      requires Valid()
      modifies this
      ensures Valid()
      ensures command == CommandAfter(old(command), body)
      ensures Decide(body).Accepted? ==>
        lastCommandTime == now && r == Response(OK, CommandSet(command, SetMessage(command)))
      ensures Decide(body).Rejected? ==>
        r == Response(BAD_REQUEST, InvalidCommand(INVALID_COMMAND)) && unchanged(this)
      ensures Decide(body).Malformed? ==>
        r == Response(BAD_REQUEST, CommandFailed) && unchanged(this)
    {
      match Destructure(body, "command")
      case None =>
        r := Response(BAD_REQUEST, CommandFailed);
      case Some(c) =>
        if c == Str(ON) || c == Str(OFF) {
          command := c.s;
          lastCommandTime := now;
          r := Response(OK, CommandSet(command, SetMessage(c.s)));
        } else {
          r := Response(BAD_REQUEST, InvalidCommand(INVALID_COMMAND));
        }
    }

    /** The whole handler: OPTIONS is answered empty, GET reads, POST sets, and
        any other method is refused with 405. */
    method Handle(verb: Verb, body: Value, now: int) returns (r: Response<Reply>)
      requires Valid()
      modifies this
      ensures Valid()
      ensures verb.Options? ==> r == Response(OK, NoBody) && unchanged(this)
      ensures verb.Get? ==> r == Response(OK, Current(command, IsoString(now))) && unchanged(this)
      ensures verb.Post? ==> command == CommandAfter(old(command), body)
      ensures verb.Post? && Decide(body).Accepted? ==>
        lastCommandTime == now && r == Response(OK, CommandSet(command, SetMessage(command)))
      ensures verb.Post? && Decide(body).Rejected? ==>
        r == Response(BAD_REQUEST, InvalidCommand(INVALID_COMMAND)) && unchanged(this)
      ensures verb.Post? && Decide(body).Malformed? ==>
        r == Response(BAD_REQUEST, CommandFailed) && unchanged(this)
      ensures !verb.Options? && !verb.Get? && !verb.Post? ==>
        r == Response(METHOD_NOT_ALLOWED, NotAllowed(NOT_ALLOWED_ERROR)) && unchanged(this)
    {
      if verb.Options? {
        r := Response(OK, NoBody);
      } else if verb.Get? {
        r := Get(now);
      } else if verb.Post? {
        r := Post(body, now);
      } else {
        r := Response(METHOD_NOT_ALLOWED, NotAllowed(NOT_ALLOWED_ERROR));
      }
    }
  }
}
