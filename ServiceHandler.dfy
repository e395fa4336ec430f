/**
 * The production's HTTP control endpoint. A DELETE (section 9.3.5 of RFC 9110) on
 * `/api/v1/production` whose JSON body (RFC 8259) names this run asks the production to
 * stop at the given level. It is answered 204 (section 15.3.5 of RFC 9110).
 * A body that is malformed, lacks `level` or `runid`, or names another run is answered
 * 422 (section 15.5.21 of RFC 9110).
 * Any other path is answered 400 (section 15.5.1 of RFC 9110).
 *
 * JSON parsing is outside the model: the body arrives already parsed, or as None when it
 * is not valid JSON.
 */
module ServiceHandler {
  import opened Wrappers
  import opened PyText

  const ProductionPath := "/api/v1/production"

  /** A JSON value, as far as the handler looks at it. */
  datatype JsonValue = JString(s: string) | JNumber(n: int) | JOther

  /** A parsed body: an object, or any other JSON value (indexing it by a key raises TypeError). */
  datatype Body = JObject(fields: map<string, JsonValue>) | JNotObject

  /** What the handler decides: 400, 422, 204 with the stop level, or an exception before any answer. */
  datatype Decision = BadRequest | Unprocessable | Accepted(level: JsonValue) | NoAnswer

  /**
   * `do_DELETE`'s branching. `contentLength` is the `Content-length` header (None when absent):
   * `int()` of it is taken outside the `try`, so a missing or non-numeric header raises out of the handler.
   */
  function Decide(path: string, runid: string, contentLength: Option<string>, parsed: Option<Body>): (r: Decision)
    ensures path != ProductionPath ==> r == BadRequest
    ensures path == ProductionPath ==>
              (r == NoAnswer <==> contentLength.None? || ParseInt(Strip(contentLength.value)).None?)
    ensures r.Accepted? <==>
              path == ProductionPath && contentLength.Some? && ParseInt(Strip(contentLength.value)).Some? &&
              parsed.Some? && parsed.value.JObject? &&
              "level" in parsed.value.fields && "runid" in parsed.value.fields &&
              parsed.value.fields["runid"] == JString(runid)
    ensures r.Accepted? ==> r.level == parsed.value.fields["level"]
  {
    if path != ProductionPath then BadRequest
    else if contentLength.None? || ParseInt(Strip(contentLength.value)).None? then NoAnswer
    else if parsed.None? || parsed.value.JNotObject? then Unprocessable
    else if "level" !in parsed.value.fields then Unprocessable
    else if "runid" !in parsed.value.fields then Unprocessable
    else if parsed.value.fields["runid"] != JString(runid) then Unprocessable
    else Accepted(parsed.value.fields["level"])
  }

  /** `level` is looked up before the run id is compared: without it even the right run id is refused. */
  lemma MissingLevelRejected(runid: string, contentLength: string, fields: map<string, JsonValue>)
    requires ParseInt(Strip(contentLength)).Some?
    requires "level" !in fields && "runid" in fields && fields["runid"] == JString(runid)
    ensures Decide(ProductionPath, runid, Some(contentLength), Some(JObject(fields))) == Unprocessable
  {
  }

  /** `writeError`: a JSON object with exactly the keys `status` and `message`. */
  function ErrorObject(status: string, message: string): (r: map<string, string>)
    ensures r.Keys == {"status", "message"}
    ensures r["status"] == status && r["message"] == message
  {
    map["status" := status, "message" := message]
  }

  /** What the handler writes to the client, in order. */
  datatype Write = StatusLine(code: int) | EndHeaders | ErrorBody(body: map<string, string>)

  /** The writes and the stop level the parent's `stopProduction` is called with (None: not called). */
  datatype Reply = Reply(writes: seq<Write>, stopLevel: Option<JsonValue>)

  /** The reply as written: in the 400 branch the error body goes out before the end of the headers. */
  function DeleteAsWritten(d: Decision): Reply {
    match d
    case BadRequest => Reply([StatusLine(400), ErrorBody(ErrorObject("Bad Request", "Request is unsupported")), EndHeaders], None)
    case Unprocessable => Reply([StatusLine(422), EndHeaders, ErrorBody(ErrorObject("Unprocessable entity", "Error in syntax of message"))], None)
    case Accepted(level) => Reply([StatusLine(204), EndHeaders], Some(level))
    case NoAnswer => Reply([], None)
  }

  /** Every reply the handler gives is a status line, then the end of the header section, then at most a body. */
  predicate WellFramed(writes: seq<Write>) {
    |writes| >= 2 && writes[0].StatusLine? && writes[1] == EndHeaders &&
    forall k :: 2 <= k < |writes| ==> writes[k].ErrorBody?
  }

  /** The 400 reply as written puts its body in the header section (section 2.1 of RFC 9112: the body follows the empty line). */
  lemma BadRequestAsWrittenIsMisframed()
    ensures !WellFramed(DeleteAsWritten(BadRequest).writes)
  {
  }

  /** The reply with the 400 branch ending its headers before the body, as the 422 branch does. */
  function Delete(d: Decision): (r: Reply)
    ensures d != NoAnswer ==> WellFramed(r.writes)
    ensures d.BadRequest? ==> r.writes[0] == StatusLine(400)
    ensures d.Unprocessable? ==> r.writes[0] == StatusLine(422)
    ensures d.BadRequest? || d.Unprocessable? ==> |r.writes| == 3 && r.writes[2].ErrorBody?
    ensures d.Accepted? <==> r.writes != [] && r.writes[0] == StatusLine(204)
    ensures r.stopLevel.Some? <==> d.Accepted?
    ensures d.Accepted? ==> r.stopLevel == Some(d.level) && |r.writes| == 2
    ensures d.NoAnswer? ==> r.writes == []
  {
    match d
    case BadRequest => Reply([StatusLine(400), EndHeaders, ErrorBody(ErrorObject("Bad Request", "Request is unsupported"))], None)
    case Unprocessable => Reply([StatusLine(422), EndHeaders, ErrorBody(ErrorObject("Unprocessable entity", "Error in syntax of message"))], None)
    case Accepted(level) => Reply([StatusLine(204), EndHeaders], Some(level))
    case NoAnswer => Reply([], None)
  }

  /** Apart from the order of the 400 branch's writes, the corrected reply is the one as written. */
  lemma DeleteDiffersOnlyInFraming(d: Decision)
    ensures Delete(d).stopLevel == DeleteAsWritten(d).stopLevel
    ensures multiset(Delete(d).writes) == multiset(DeleteAsWritten(d).writes)
    ensures !d.BadRequest? ==> Delete(d) == DeleteAsWritten(d)
  {
  }
}
