/**
 * One HTTP round trip as the client observes it, the errors the client
 * reports, and the status rules shared by the deployment and desktop calls.
 * Request construction, TLS and the transport itself are not modelled: each
 * call's reply is a parameter.
 */
module Transport {
  import opened Wrappers
  import opened JsonValues

  const StatusOK := 200
  const StatusCreated := 201
  const StatusNoContent := 204
  const StatusNotFound := 404

  /**
   * What a call produced: the transport failed (the request could not be
   * sent, no reply arrived, or its body could not be read), or a status code
   * with the raw body and that body decoded as JSON (`None` when it is not
   * JSON).
   */
  datatype HttpResult =
    | TransportFailed
    | Reply(status: int, raw: string, json: Option<Json>)

  /** The client's errors; each carries what its Go message formats. */
  datatype Error =
    | Transport                        // HTTPClient.Do or io.ReadAll failed
    | Status(code: int, body: string)  // a status the call does not accept
    | Malformed                        // json.Unmarshal rejected the body
    | MissingId(body: string)          // no string "id" in a create reply
    | NoToken(body: string)            // no token in an authentication reply
    | TemplateFetch(cause: Error)      // the template lookup of a deployment create failed

  /**
   * A lifecycle call's outcome.  `NotFound` is the 404 of a read, which the
   * Go code reports as the error text "deployment not found" or
   * "desktop not found" and which no other path produces.
   */
  datatype Outcome<+T> = Ok(value: T) | NotFound | Err(error: Error)

  /** A call that succeeds exactly on the statuses in `accepted`, whatever the body. */
  function Accept(r: HttpResult, accepted: set<int>): (o: Outcome<()>)
    ensures o.Ok? <==> r.Reply? && r.status in accepted
    ensures r.TransportFailed? ==> o == Err(Transport)
    ensures r.Reply? && r.status !in accepted ==> o == Err(Status(r.status, r.raw))
  {
    match r
    case TransportFailed => Err(Transport)
    case Reply(status, raw, _) => if status in accepted then Ok(()) else Err(Status(status, raw))
  }

  /**
   * The reply to a create (POST of a deployment or a persistent desktop):
   * 200 or 201, then a JSON object whose "id" is a string.
   */
  function CreatedId(r: HttpResult): (o: Outcome<string>)
    ensures !o.NotFound?
    ensures o.Ok? <==>
              r.Reply? && (r.status == StatusOK || r.status == StatusCreated) &&
              DecodeObject(r.json).Some? && StringField(DecodeObject(r.json).value, "id").Some?
    ensures o.Ok? ==> o.value == DecodeObject(r.json).value["id"].s
    ensures r.Reply? && r.status != StatusOK && r.status != StatusCreated ==> o == Err(Status(r.status, r.raw))
    ensures r.Reply? && (r.status == StatusOK || r.status == StatusCreated) && DecodeObject(r.json).None? ==>
              o == Err(Malformed)
    ensures r.Reply? && (r.status == StatusOK || r.status == StatusCreated) && DecodeObject(r.json).Some? &&
            StringField(DecodeObject(r.json).value, "id").None? ==>
              o == Err(MissingId(r.raw))
    ensures r.TransportFailed? ==> o == Err(Transport)
  {
    match r
    case TransportFailed => Err(Transport)
    case Reply(status, raw, json) =>
      if status != StatusOK && status != StatusCreated then Err(Status(status, raw))
      else match DecodeObject(json)
        case None => Err(Malformed)
        case Some(response) =>
          match StringField(response, "id")
          case Some(id) => Ok(id)
          case None => Err(MissingId(raw))
  }

  /**
   * The reply to a read that distinguishes a missing entity: 404 is
   * `NotFound`, any other status but 200 an error, and 200 yields the decoded
   * body for the caller to unmarshal.
   */
  function ReadReply(r: HttpResult): (o: Outcome<Option<Json>>)
    ensures o.NotFound? <==> r.Reply? && r.status == StatusNotFound
    ensures o.Ok? <==> r.Reply? && r.status == StatusOK
    ensures o.Ok? ==> o.value == r.json
    ensures r.Reply? && r.status != StatusOK && r.status != StatusNotFound ==> o == Err(Status(r.status, r.raw))
    ensures r.TransportFailed? ==> o == Err(Transport)
  {
    match r
    case TransportFailed => Err(Transport)
    case Reply(status, raw, json) =>
      if status == StatusNotFound then NotFound
      else if status != StatusOK then Err(Status(status, raw))
      else Ok(json)
  }
}
