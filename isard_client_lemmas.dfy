/** The token negotiation's precedence, its fallbacks, and the sign-in dispatch. */
module IsardClientLemmas {
  import opened Wrappers
  import opened JsonValues
  import opened Transport
  import opened IsardClient

  /** A string `data` is the token, whatever else the reply holds. */
  lemma DataStringFirst(reply: map<string, Json>, raw: string)
    requires StringField(reply, "data").Some?
    ensures ProbeToken(Some(reply), raw) == Success(reply["data"].s)
  {
    AuthShapesInOrder(reply);
  }

  /** Otherwise a string `token` is the token. */
  lemma TokenStringSecond(reply: map<string, Json>, raw: string)
    requires StringField(reply, "data").None? && StringField(reply, "token").Some?
    ensures ProbeToken(Some(reply), raw) == Success(reply["token"].s)
  {
    AuthShapesInOrder(reply);
  }

  /** Otherwise a string `token` inside a `data` object is the token. */
  lemma NestedTokenThird(reply: map<string, Json>, raw: string)
    requires StringField(reply, "data").None? && StringField(reply, "token").None?
    requires ObjectField(reply, "data").Some? && StringField(reply["data"].fields, "token").Some?
    ensures ProbeToken(Some(reply), raw) == Success(reply["data"].fields["token"].s)
  {
    AuthShapesInOrder(reply);
  }

  /** A body that is not a JSON object, or one matching no shape, is the token verbatim when non-empty. */
  lemma RawBodyFallback(reply: Option<map<string, Json>>, raw: string)
    requires |raw| > 0
    requires reply.Some? ==>
               && StringField(reply.value, "data").None? && StringField(reply.value, "token").None?
               && (ObjectField(reply.value, "data").Some? ==> StringField(reply.value["data"].fields, "token").None?)
    ensures ProbeToken(reply, raw) == Success(raw)
  {
    if reply.Some? {
      AuthShapesInOrder(reply.value);
    }
  }

  /** An accepted reply with an empty body that is not JSON yields no token. */
  lemma EmptyBodyNoToken(status: int)
    requires status == 200 || status == 201
    ensures NegotiatedToken(Reply(status, "", None)) == Failure(NoToken(""))
  {
  }

  /** A status other than 200 or 201 is an error before the body is looked at. */
  lemma RefusedStatusIsError(status: int, raw: string, json: Option<Json>)
    requires status != 200 && status != 201
    ensures NegotiatedToken(Reply(status, raw, json)) == Failure(Status(status, raw))
  {
  }

  /** The four reply shapes, on example bodies. */
  lemma NegotiationExamples()
    ensures NegotiatedToken(Reply(200, "{\"data\":\"tok123\"}", Some(JObj(map["data" := JStr("tok123")]))))
            == Success("tok123")
    ensures NegotiatedToken(Reply(200, "{\"token\":\"tokXYZ\"}", Some(JObj(map["token" := JStr("tokXYZ")]))))
            == Success("tokXYZ")
    ensures NegotiatedToken(Reply(200, "{\"data\":{\"token\":\"tokNested\"}}",
                                  Some(JObj(map["data" := JObj(map["token" := JStr("tokNested")])]))))
            == Success("tokNested")
    ensures NegotiatedToken(Reply(200, "plainTokenValue", None)) == Success("plainTokenValue")
  {
    AuthShapesInOrder(map["data" := JStr("tok123")]);
    AuthShapesInOrder(map["token" := JStr("tokXYZ")]);
    AuthShapesInOrder(map["data" := JObj(map["token" := JStr("tokNested")])]);
  }

  /** The JSON `null` unmarshals into a nil map, matches no shape, and so the text "null" becomes the token. */
  lemma NullReplyIsRawToken()
    ensures NegotiatedToken(Reply(200, "null", Some(JNull))) == Success("null")
  {
    AuthShapesInOrder(map[]);
  }

  /** The "token" method does send a request: the configured token goes to the "saml" provider. */
  lemma TokenMethodSignsIn(categoryId: string, username: string, password: string, token: string)
    ensures AuthRequestFor("token", categoryId, username, password, token) ==
              Some(AuthRequest("GET", "saml", categoryId, Header(token)))
  {
  }
}
