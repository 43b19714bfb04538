/**
 * The provider's configuration: defaults and checks on the settings, then
 * a client created and signed in, handed to resources and data sources.
 */
module Provider {
  import opened Wrappers
  import opened Transport
  import opened IsardClient
  import opened Terraform

  /** `IsardProviderModel`. */
  datatype ProviderModel = ProviderModel(
    endpoint: TfValue<string>, authMethod: TfValue<string>, cathegoryId: TfValue<string>,
    token: TfValue<string>, username: TfValue<string>, password: TfValue<string>)

  const FormDetail := "When using 'form' authentication method, both 'username' and 'password' must be provided."
  const TokenDetail := "When using 'token' authentication method, 'token' must be provided."

  /** A null category becomes "default"; an unknown one is left as it is. */
  function WithDefaultCategory(data: ProviderModel): (d: ProviderModel)
    ensures d == data.(cathegoryId := d.cathegoryId)
    ensures data.cathegoryId.Null? ==> d.cathegoryId == Known("default")
    ensures !data.cathegoryId.Null? ==> d.cathegoryId == data.cathegoryId
  {
    if data.cathegoryId.Null? then data.(cathegoryId := Known("default")) else data
  }

  /**
   * The configuration checks: "form" needs a non-null username and password,
   * "token" a non-null token; the result is the error detail, if any.
   */
  function ConfigError(data: ProviderModel): (e: Option<string>)
    ensures e == Some(FormDetail) <==>
              ValueString(data.authMethod) == "form" && (data.username.Null? || data.password.Null?)
    ensures e == Some(TokenDetail) <==> ValueString(data.authMethod) == "token" && data.token.Null?
    ensures e.Some? ==> e == Some(FormDetail) || e == Some(TokenDetail)
  {
    var authMethod := ValueString(data.authMethod);
    if authMethod == "form" && (data.username.Null? || data.password.Null?) then Some(FormDetail)
    else if authMethod == "token" && data.token.Null? then Some(TokenDetail)
    else None
  }

  /** What `Configure` writes into its response. */
  class ConfigureResponse {
    var dataSourceData: Client?
    var resourceData: Client?
    var diagnostics: seq<Diagnostic>

    constructor ()
      ensures dataSourceData == null && resourceData == null && diagnostics == []
    {
      dataSourceData, resourceData, diagnostics := null, null, [];
    }
  }

  /**
   * `Configure`: default the category, check the settings, create the client
   * with the configured endpoint and token and sign it in; `authReply` is the
   * server's answer to the sign-in request, `sent` that request.  On any
   * failure a diagnostic is added and no client is handed out; on success
   * resources and data sources get the same client.
   */
  method Configure(config: ProviderModel, authReply: HttpResult, resp: ConfigureResponse)
    returns (sent: Option<AuthRequest>)
    modifies resp
    ensures ConfigError(WithDefaultCategory(config)).Some? ==>
              && sent.None?
              && resp.dataSourceData == old(resp.dataSourceData) && resp.resourceData == old(resp.resourceData)
              && resp.diagnostics == old(resp.diagnostics) +
                   [ErrorDiagnostic("Invalid Configuration", Text(ConfigError(WithDefaultCategory(config)).value))]
    ensures ConfigError(WithDefaultCategory(config)).None? ==>
              sent == AuthRequestFor(ValueString(config.authMethod),
                                     ValueString(WithDefaultCategory(config).cathegoryId),
                                     ValueString(config.username), ValueString(config.password),
                                     ValueString(config.token))
    ensures ConfigError(WithDefaultCategory(config)).None? && sent.Some? && NegotiatedToken(authReply).Failure? ==>
              && resp.dataSourceData == old(resp.dataSourceData) && resp.resourceData == old(resp.resourceData)
              && resp.diagnostics == old(resp.diagnostics) +
                   [ErrorDiagnostic("Unable to Authenticate", Cause(NegotiatedToken(authReply).error))]
    ensures ConfigError(WithDefaultCategory(config)).None? && (sent.None? || NegotiatedToken(authReply).Success?) ==>
              && resp.diagnostics == old(resp.diagnostics)
              && resp.dataSourceData != null && resp.dataSourceData == resp.resourceData
              && fresh(resp.dataSourceData)
              && resp.dataSourceData.hostUrl == ValueString(config.endpoint)
              && resp.dataSourceData.token ==
                   if sent.None? then ValueString(config.token) else NegotiatedToken(authReply).value
  {
    var data := config;
    if data.cathegoryId.Null? {
      data := data.(cathegoryId := Known("default"));
    }
    var invalid := ConfigError(data);
    if invalid.Some? {
      resp.diagnostics := resp.diagnostics + [ErrorDiagnostic("Invalid Configuration", Text(invalid.value))];
      return None;
    }

    var c := new Client(ValueString(data.endpoint), ValueString(data.token));
    var err;
    err, sent := c.SignIn(ValueString(data.authMethod), ValueString(data.cathegoryId),
                          ValueString(data.username), ValueString(data.password), authReply);
    if err.Some? {
      resp.diagnostics := resp.diagnostics + [ErrorDiagnostic("Unable to Authenticate", Cause(err.value))];
      return;
    }
    resp.dataSourceData := c;
    resp.resourceData := c;
  }

  /** A null category reaches the sign-in request as "default". */
  lemma NullCategorySignsInAsDefault(config: ProviderModel)
    requires config.cathegoryId.Null?
    ensures ValueString(WithDefaultCategory(config).cathegoryId) == "default"
  {
  }

  /** `auth_method` left null signs in with nothing: no request is sent. */
  lemma NullMethodSendsNothing(config: ProviderModel)
    requires config.authMethod.Null?
    ensures ConfigError(WithDefaultCategory(config)).None?
    ensures AuthRequestFor(ValueString(config.authMethod), ValueString(WithDefaultCategory(config).cathegoryId),
                           ValueString(config.username), ValueString(config.password), ValueString(config.token)).None?
  {
  }

  /** An unknown token passes the null check and is sent as the empty credential. */
  lemma UnknownTokenPassesCheck(config: ProviderModel)
    requires config.authMethod == Known("token") && config.token.Unknown?
    ensures ConfigError(WithDefaultCategory(config)).None?
    ensures AuthRequestFor("token", ValueString(WithDefaultCategory(config).cathegoryId),
                           ValueString(config.username), ValueString(config.password), ValueString(config.token))
            == Some(AuthRequest("GET", "saml", ValueString(WithDefaultCategory(config).cathegoryId), Header("")))
  {
  }
}
