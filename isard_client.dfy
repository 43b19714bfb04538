/**
 * The API client: sign-in with its token negotiation (the one place the
 * client's state changes), and the persistent-desktop calls.
 */
module IsardClient {
  import opened Wrappers
  import opened JsonValues
  import opened Transport

  // ---------------------------------------------------------------------
  // Sign-in

  /** How a sign-in request carries the caller's credential. */
  datatype Credentials =
    | Header(authorization: string)              // the configured token, sent as the raw Authorization header
    | Form(username: string, password: string)   // multipart form fields

  /** The request `SignIn` sends: HTTP verb, the `provider` and `category_id` query parameters, the credential. */
  datatype AuthRequest = AuthRequest(verb: string, provider: string, categoryId: string, credentials: Credentials)

  /**
   * `SignIn`'s dispatch: "token" sends the current token to the "saml"
   * provider, "form" posts username and password to the "form" provider,
   * and any other method sends nothing.
   */
  function AuthRequestFor(authMethod: string, categoryId: string, username: string, password: string, token: string)
    : (r: Option<AuthRequest>)
    ensures r.Some? <==> authMethod == "token" || authMethod == "form"
    ensures r.Some? ==> r.value.categoryId == categoryId
    ensures authMethod == "token" ==> r.value.provider == "saml" && r.value.credentials == Header(token)
    ensures authMethod == "form" ==> r.value.provider == "form" && r.value.credentials == Form(username, password)
  {
    if authMethod == "token" then Some(AuthRequest("GET", "saml", categoryId, Header(token)))
    else if authMethod == "form" then Some(AuthRequest("POST", "form", categoryId, Form(username, password)))
    else None
  }

  /** `doRequest`: the raw and decoded body of a 200 or 201 reply; anything else is an error. */
  function DoRequest(r: HttpResult): (o: Result<(string, Option<Json>), Error>)
    ensures o.Success? <==> r.Reply? && (r.status == StatusOK || r.status == StatusCreated)
    ensures o.Success? ==> o.value == (r.raw, r.json)
    ensures r.Reply? && !o.Success? ==> o == Failure(Status(r.status, r.raw))
    ensures r.TransportFailed? ==> o == Failure(Transport)
  {
    match r
    case TransportFailed => Failure(Transport)
    case Reply(status, raw, json) =>
      if status != StatusOK && status != StatusCreated then Failure(Status(status, raw))
      else Success((raw, json))
  }

  /** The structural shapes a sign-in reply is probed for. */
  datatype Shape =
    | DataString    // {"data": "<token>"}
    | TokenString   // {"token": "<token>"}
    | DataToken     // {"data": {"token": "<token>"}}

  /** The order the shapes are tried in: the first that matches wins. */
  const AuthShapes: seq<Shape> := [DataString, TokenString, DataToken]

  function MatchShape(shape: Shape, reply: map<string, Json>): Option<string> {
    match shape
    case DataString => StringField(reply, "data")
    case TokenString => StringField(reply, "token")
    case DataToken =>
      match ObjectField(reply, "data")
      case Some(data) => StringField(data, "token")
      case None => None
  }

  /** The token of the first shape in `shapes` that matches `reply`. */
  function FirstMatch(shapes: seq<Shape>, reply: map<string, Json>): (r: Option<string>)
    ensures r.None? <==> forall i :: 0 <= i < |shapes| ==> MatchShape(shapes[i], reply).None?
    ensures r.Some? ==>
              exists i :: 0 <= i < |shapes| && MatchShape(shapes[i], reply) == r &&
                          forall j :: 0 <= j < i ==> MatchShape(shapes[j], reply).None?
  {
    if shapes == [] then None
    else match MatchShape(shapes[0], reply)
      case Some(t) => Some(t)
      case None =>
        var rest := FirstMatch(shapes[1..], reply);
        assert forall i :: 1 <= i < |shapes| ==> shapes[i] == shapes[1..][i - 1];
        rest
  }

  /**
   * The token a successful sign-in reply yields: the first matching shape of
   * the body unmarshalled into a map, else the raw body when it is not empty.
   */
  function ProbeToken(reply: Option<map<string, Json>>, raw: string): (t: Result<string, Error>)
    ensures t.Failure? <==> |raw| == 0 && (reply.None? || FirstMatch(AuthShapes, reply.value).None?)
    ensures t.Failure? ==> t.error == NoToken(raw)
  {
    match (if reply.Some? then FirstMatch(AuthShapes, reply.value) else None)
    case Some(token) => Success(token)
    case None => if |raw| > 0 then Success(raw) else Failure(NoToken(raw))
  }

  /** What a sign-in makes of the server's reply: a token, or an error. */
  function NegotiatedToken(r: HttpResult): Result<string, Error> {
    match DoRequest(r)
    case Failure(e) => Failure(e)
    case Success((raw, json)) => ProbeToken(DecodeObject(json), raw)
  }

  /** The shape list unfolded: the order the Go code writes its three assertions in. */
  lemma AuthShapesInOrder(reply: map<string, Json>)
    ensures FirstMatch(AuthShapes, reply) ==
              if StringField(reply, "data").Some? then StringField(reply, "data")
              else if StringField(reply, "token").Some? then StringField(reply, "token")
              else if ObjectField(reply, "data").Some? then StringField(ObjectField(reply, "data").value, "token")
              else None
  {
    assert AuthShapes[1..] == [TokenString, DataToken];
    assert [TokenString, DataToken][1..] == [DataToken];
    assert [DataToken][1..] == [];
    assert FirstMatch([DataToken], reply) == MatchShape(DataToken, reply);
    assert FirstMatch([TokenString, DataToken], reply) ==
             if MatchShape(TokenString, reply).Some? then MatchShape(TokenString, reply)
             else FirstMatch([DataToken], reply);
  }

  /** The connection to the server; sign-in replaces `token`. */
  class Client {
    var hostUrl: string
    var token: string

    /** `NewClient`. */
    constructor (host: string, token: string)
      ensures hostUrl == host && this.token == token
    {
      hostUrl := host;
      this.token := token;
    }

    /**
     * `SignIn`: sends the request `AuthRequestFor` picks, if any, and
     * negotiates the token from `reply`, the server's answer to it.  `sent`
     * is that request; a method other than "token" or "form" sends nothing,
     * succeeds and leaves the token alone.
     */
    method SignIn(authMethod: string, categoryId: string, username: string, password: string, reply: HttpResult)
      returns (err: Option<Error>, sent: Option<AuthRequest>)
      modifies this
      ensures hostUrl == old(hostUrl)
      ensures sent == AuthRequestFor(authMethod, categoryId, username, password, old(token))
      ensures sent.None? ==> err.None? && token == old(token)
      ensures sent.Some? && NegotiatedToken(reply).Success? ==> err.None? && token == NegotiatedToken(reply).value
      ensures sent.Some? && NegotiatedToken(reply).Failure? ==>
                err == Some(NegotiatedToken(reply).error) && token == old(token)
    {
      if authMethod == "token" {
        sent := Some(AuthRequest("GET", "saml", categoryId, Header(token)));
        err := ExecuteAuth(reply);
        return;
      }
      if authMethod == "form" {
        sent := Some(AuthRequest("POST", "form", categoryId, Form(username, password)));
        err := ExecuteAuth(reply);
        return;
      }
      return None, None;
    }

    /**
     * `executeAuthRequest`: a refused reply is an error before any parsing;
     * otherwise the body is probed for `data`, then `token`, then
     * `data.token`, then taken whole when not empty.  The token changes only
     * on success.
     */
    method ExecuteAuth(reply: HttpResult) returns (err: Option<Error>)
      modifies this
      ensures hostUrl == old(hostUrl)
      ensures NegotiatedToken(reply).Success? ==> err.None? && token == NegotiatedToken(reply).value
      ensures NegotiatedToken(reply).Failure? ==> err == Some(NegotiatedToken(reply).error) && token == old(token)
    {
      var response := DoRequest(reply);
      if response.Failure? {
        return Some(response.error);
      }
      var (body, json) := response.value;
      var authResp := DecodeObject(json);
      if authResp.Some? {
        AuthShapesInOrder(authResp.value);
        var data := StringField(authResp.value, "data");
        if data.Some? {
          token := data.value;
          return None;
        }
        var plain := StringField(authResp.value, "token");
        if plain.Some? {
          token := plain.value;
          return None;
        }
        var nested := ObjectField(authResp.value, "data");
        if nested.Some? {
          var inner := StringField(nested.value, "token");
          if inner.Some? {
            token := inner.value;
            return None;
          }
        }
      }
      if |body| > 0 {
        token := body;
        return None;
      }
      return Some(NoToken(body));
    }
  }

  // ---------------------------------------------------------------------
  // Persistent desktops

  /**
   * What a persistent-desktop create POSTs: always `name` and `template_id`,
   * `description` only when non-empty, and `hardware` exactly when vcpus or
   * memory is given, holding only the given ones (memory as given, not
   * truncated).
   */
  predicate IsDesktopPayload(payload: map<string, Json>, name: string, description: string, templateId: string,
                             vcpus: Option<int>, memory: Option<real>)
  {
    && payload.Keys == {"name", "template_id"}
                       + (if description != "" then {"description"} else {})
                       + (if vcpus.Some? || memory.Some? then {"hardware"} else {})
    && payload["name"] == JStr(name)
    && payload["template_id"] == JStr(templateId)
    && (description != "" ==> payload["description"] == JStr(description))
    && ("hardware" in payload ==>
          && payload["hardware"].JObj?
          && payload["hardware"].fields.Keys == (if vcpus.Some? then {"vcpus"} else {})
                                               + (if memory.Some? then {"memory"} else {})
          && (vcpus.Some? ==> payload["hardware"].fields["vcpus"] == JNum(vcpus.value as real))
          && (memory.Some? ==> payload["hardware"].fields["memory"] == JNum(memory.value)))
  }

  /** Builds the persistent-desktop payload by successive insertions. */
  method DesktopPayload(name: string, description: string, templateId: string, vcpus: Option<int>, memory: Option<real>)
    returns (payload: map<string, Json>)
    ensures IsDesktopPayload(payload, name, description, templateId, vcpus, memory)
  {
    payload := map["name" := JStr(name), "template_id" := JStr(templateId)];
    if description != "" {
      payload := payload["description" := JStr(description)];
    }
    if vcpus.Some? || memory.Some? {
      var hardware: map<string, Json> := map[];
      if vcpus.Some? {
        hardware := hardware["vcpus" := JNum(vcpus.value as real)];
      }
      if memory.Some? {
        hardware := hardware["memory" := JNum(memory.value)];
      }
      payload := payload["hardware" := JObj(hardware)];
    }
  }

  /** `CreatePersistentDesktop`: POST the payload, read the new ID from `reply`. */
  method CreatePersistentDesktop(name: string, description: string, templateId: string,
                                 vcpus: Option<int>, memory: Option<real>, reply: HttpResult)
    returns (result: Outcome<string>, posted: map<string, Json>)
    ensures IsDesktopPayload(posted, name, description, templateId, vcpus, memory)
    ensures result == CreatedId(reply)
  {
    posted := DesktopPayload(name, description, templateId, vcpus, memory);
    result := CreatedId(reply);
  }

  /** The fields of `Desktop`. */
  datatype Desktop = Desktop(id: string, name: string, description: string, templateId: string, vcpus: int, memory: real)

  /**
   * The desktop read from a decoded `domain/info` reply: the ID is the one
   * asked for, each other field is set only when its value has the expected
   * kind, and keeps its zero value otherwise.
   */
  function DesktopOf(desktopId: string, response: map<string, Json>): (d: Desktop)
    ensures d.id == desktopId
    ensures d.name == StringField(response, "name").GetOr("")
    ensures d.description == StringField(response, "description").GetOr("")
    ensures ObjectField(response, "create_dict").Some? ==>
              d.templateId == StringField(ObjectField(response, "create_dict").value, "origin").GetOr("")
    ensures ObjectField(response, "create_dict").None? ==> d.templateId == ""
    ensures ObjectField(response, "hardware").Some? && NumberField(ObjectField(response, "hardware").value, "vcpus").Some? ==>
              d.vcpus == Trunc(ObjectField(response, "hardware").value["vcpus"].n)
    ensures ObjectField(response, "hardware").Some? && NumberField(ObjectField(response, "hardware").value, "memory").Some? ==>
              d.memory == ObjectField(response, "hardware").value["memory"].n
    ensures ObjectField(response, "hardware").Some? && NumberField(ObjectField(response, "hardware").value, "vcpus").None? ==>
              d.vcpus == 0
    ensures ObjectField(response, "hardware").Some? && NumberField(ObjectField(response, "hardware").value, "memory").None? ==>
              d.memory == 0.0
    ensures ObjectField(response, "hardware").None? ==> d.vcpus == 0 && d.memory == 0.0
  {
    var desktop := Desktop(desktopId, "", "", "", 0, 0.0);
    var desktop := if StringField(response, "name").Some? then desktop.(name := response["name"].s) else desktop;
    var desktop := if StringField(response, "description").Some? then desktop.(description := response["description"].s) else desktop;
    var desktop :=
      match ObjectField(response, "create_dict")
      case Some(createDict) =>
        if StringField(createDict, "origin").Some? then desktop.(templateId := createDict["origin"].s) else desktop
      case None => desktop;
    match ObjectField(response, "hardware")
    case Some(hardware) =>
      var desktop := if NumberField(hardware, "vcpus").Some? then desktop.(vcpus := Trunc(hardware["vcpus"].n)) else desktop;
      if NumberField(hardware, "memory").Some? then desktop.(memory := hardware["memory"].n) else desktop
    case None => desktop
  }

  /** `GetDesktop`: 404 is `NotFound` ("desktop not found"), other non-200 statuses errors. */
  function GetDesktop(desktopId: string, r: HttpResult): (o: Outcome<Desktop>)
    ensures o.NotFound? <==> r.Reply? && r.status == StatusNotFound
    ensures o.Ok? <==> r.Reply? && r.status == StatusOK && DecodeObject(r.json).Some?
    ensures o.Ok? ==> o.value == DesktopOf(desktopId, DecodeObject(r.json).value)
    ensures r.Reply? && r.status != StatusOK && r.status != StatusNotFound ==> o == Err(Status(r.status, r.raw))
    ensures r.Reply? && r.status == StatusOK && DecodeObject(r.json).None? ==> o == Err(Malformed)
    ensures r.TransportFailed? ==> o == Err(Transport)
  {
    match ReadReply(r)
    case NotFound => NotFound
    case Err(e) => Err(e)
    case Ok(json) =>
      match DecodeObject(json)
      case Some(response) => Ok(DesktopOf(desktopId, response))
      case None => Err(Malformed)
  }

  /** `DeleteDesktop`: 200, 204 and 404 are success. */
  function DeleteDesktop(r: HttpResult): (o: Outcome<()>)
    ensures o.Ok? <==> r.Reply? && (r.status == StatusOK || r.status == StatusNoContent || r.status == StatusNotFound)
    ensures !o.NotFound?
    ensures r.Reply? && !o.Ok? ==> o == Err(Status(r.status, r.raw))
  {
    Accept(r, {StatusOK, StatusNoContent, StatusNotFound})
  }
}
