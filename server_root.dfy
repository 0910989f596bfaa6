/** The MCP server variant that authenticates callers through an Azure identity
    provider (`enterprise_mcp_auth/server/ai_search_mcp_server.py`).

    Module state: the lazily built MSAL confidential client `msal_app`. Each tool
    handler reads the caller's access token from the request context (absent:
    "Not authenticated", and nothing else happens), exchanges it on behalf of the
    caller for a search-service token (logging the claims of both tokens on the
    way, which raises when they do not decode to a JSON object), passes that token to the store as the
    `x_ms_query_source_authorization` keyword argument, and strips `@` keys from
    what comes back. The specification functions below say what one handler call
    returns and which external calls it makes; the `Server` class methods follow
    the code step by step and are proved to agree with them. */
module RootServer {
  import opened PyRuntime
  import opened Relay
  import opened JwtClaims

  /** Module-level configuration read from the environment at import time. */
  datatype Config = Config(
    searchEndpoint: string, searchIndex: string, adminKey: string,
    clientId: string, clientSecret: string, tenantId: string, publicUrl: string)

  function ConfigFromEnv(env: Env): (cfg: Config)
    ensures cfg.searchIndex == GetEnvOr(env, "AZURE_SEARCH_INDEX", "documents")
    ensures cfg.clientId == GetEnvOr(env, "AZURE_CLIENT_ID", "")
    ensures cfg.tenantId == GetEnvOr(env, "AZURE_TENANT_ID", "")
    ensures cfg.clientSecret == GetEnvOr(env, "AZURE_CLIENT_SECRET", "")
  {
    Config(
      GetEnvOr(env, "AZURE_SEARCH_ENDPOINT", ""),
      GetEnvOr(env, "AZURE_SEARCH_INDEX", "documents"),
      GetEnvOr(env, "AZURE_SEARCH_ADMIN_KEY", ""),
      GetEnvOr(env, "AZURE_CLIENT_ID", ""),
      GetEnvOr(env, "AZURE_CLIENT_SECRET", ""),
      GetEnvOr(env, "AZURE_TENANT_ID", ""),
      GetEnvOr(env, "MCP_SERVER_PUBLIC_URL", "http://localhost:8000"))
  }

  /** The `AzureProvider` the FastMCP server is given as its `auth`. */
  datatype AzureProvider = AzureProvider(
    clientId: string, clientSecret: string, tenantId: string, baseUrl: string,
    requiredScopes: seq<string>)

  /** The provider exists only when client id, tenant id and secret are all non-empty. */
  function AuthProviderFor(cfg: Config): (r: Option<AzureProvider>)
    ensures r.Some? <==> cfg.clientId != "" && cfg.tenantId != "" && cfg.clientSecret != ""
    ensures r.Some? ==> r.value.requiredScopes == ["user_impersonation"] && r.value.baseUrl == cfg.publicUrl
  {
    if cfg.clientId != "" && cfg.tenantId != "" && cfg.clientSecret != "" then
      Some(AzureProvider(cfg.clientId, cfg.clientSecret, cfg.tenantId, cfg.publicUrl, ["user_impersonation"]))
    else None
  }

  /** `initialize_msal`: a no-op once the app exists; otherwise builds it exactly
      when client id and tenant id are both non-empty. */
  function InitMsal(app: Option<MsalApp>, cfg: Config): (r: Option<MsalApp>)
    ensures app.Some? ==> r == app
    ensures app.None? ==> (r.Some? <==> cfg.clientId != "" && cfg.tenantId != "")
    ensures app.None? && r.Some? ==>
              r.value == MsalApp(cfg.clientId, Authority(cfg.tenantId), cfg.clientSecret)
  {
    if app.Some? then app
    else if cfg.clientId != "" && cfg.tenantId != "" then
      Some(MsalApp(cfg.clientId, Authority(cfg.tenantId), cfg.clientSecret))
    else None
  }

  /** Initialisation is idempotent. */
  lemma InitMsalIdempotent(app: Option<MsalApp>, cfg: Config)
    ensures InitMsal(InitMsal(app, cfg), cfg) == InitMsal(app, cfg)
  {
  }

  /** The claims `get_obo_token` decodes from a token for its log support `.get`,
      that is, they are a JSON object. */
  predicate Loggable(token: string, decode: Decoder) {
    DecodeJwtPayload(token, decode).JObj?
  }

  /** `get_obo_token`, given the app as it is after `initialize_msal`. The claims
      of the caller's token are logged before the exchange and those of the
      issued token after it; reading them raises `AttributeError` when they are
      not a JSON object, which ends the call (after the exchange in the second
      case). */
  function OboToken(app: Option<MsalApp>, userToken: string, grant: OboGrant, decode: Decoder): (r: Served<string>)
    ensures app.None? ==> r == Served(Raised(Exn(Exception, NotInitialisedMessage)), [])
    ensures app.Some? && !Loggable(userToken, decode) ==>
              r == Served(Raised(Exn(AttributeError, NoGetMessage)), [])
    ensures app.Some? && Loggable(userToken, decode) ==>
              r.effects == [OboExchange(app.value, userToken, SearchScopes)]
    ensures r.outcome.Returned? <==>
              app.Some? && Loggable(userToken, decode)
              && var result := grant(app.value, userToken, SearchScopes);
                 "access_token" in result && Loggable(result["access_token"], decode)
    ensures r.outcome.Returned? ==>
              r.outcome.value == grant(app.value, userToken, SearchScopes)["access_token"]
    ensures app.Some? && Loggable(userToken, decode) ==>
              var result := grant(app.value, userToken, SearchScopes);
              "access_token" !in result ==> r.outcome == OboResultToken(result, ": ")
    ensures app.Some? && Loggable(userToken, decode) ==>
              var result := grant(app.value, userToken, SearchScopes);
              "access_token" in result && !Loggable(result["access_token"], decode) ==>
                r.outcome == Raised(Exn(AttributeError, NoGetMessage))
  {
    match app
    case None => Served(Raised(Exn(Exception, NotInitialisedMessage)), [])
    case Some(a) =>
      if !Loggable(userToken, decode) then Served(Raised(Exn(AttributeError, NoGetMessage)), [])
      else
        var result := grant(a, userToken, SearchScopes);
        var effects := [OboExchange(a, userToken, SearchScopes)];
        if "access_token" in result && !Loggable(result["access_token"], decode) then
          Served(Raised(Exn(AttributeError, NoGetMessage)), effects)
        else Served(OboResultToken(result, ": "), effects)
  }

  /** The token object `get_access_token()` yields for an authenticated request. */
  datatype AccessToken = AccessToken(token: string, claims: Dict)

  /** `search_documents(query, top)`; `top` is `None` when the caller omits it.
      Only the token the exchange returned reaches the store, in the one call
      that follows the exchange, and no returned document keeps an annotation. */
  function SearchSpec(app: Option<MsalApp>, caller: Option<AccessToken>, query: string, top: Option<int>,
                      grant: OboGrant, decode: Decoder, svc: SearchService): (r: Served<seq<Dict>>)
    ensures caller.None? ==> r == Served(Returned([NotAuthenticated]), [])
    ensures caller.Some? ==>
              var obo := OboToken(app, caller.value.token, grant, decode);
              && obo.effects <= r.effects
              && (obo.outcome.Raised? ==> r == Served(Raised(obo.outcome.exn), obo.effects))
              && (obo.outcome.Returned? ==>
                    r.effects == obo.effects + [SearchCall(SearchRequest(query, top.GetOr(DefaultTop),
                                                                         AuthKeyword(obo.outcome.value)))])
    ensures caller.Some? && r.outcome.Returned? ==> Unannotated(r.outcome.value)
    ensures caller.Some? && OboToken(app, caller.value.token, grant, decode).outcome.Returned? ==>
              var request := r.effects[|r.effects| - 1].search;
              && (svc.search(request).Ok? <==> r.outcome.Returned?)
              && (svc.search(request).Ok? ==> r.outcome.value == ProjectRows(svc.search(request).value))
              && (svc.search(request).Failed? ==> r.outcome == Raised(Exn(Exception, svc.search(request).message)))
  {
    match caller
    case None => Served(Returned([NotAuthenticated]), [])
    case Some(t) =>
      var obo := OboToken(app, t.token, grant, decode);
      match obo.outcome
      case Raised(e) => Served(Raised(e), obo.effects)
      case Returned(token) =>
        var request := SearchRequest(query, top.GetOr(DefaultTop), AuthKeyword(token));
        var effects := obo.effects + [SearchCall(request)];
        match svc.search(request)
        case Failed(msg) => Served(Raised(Exn(Exception, msg)), effects)
        case Ok(rows) => Served(Returned(ProjectRows(rows)), effects)
  }

  /** `get_document(id)`: store failures become `{"error": str(e), "id": id}`;
      a failed exchange is not caught. */
  function GetDocumentSpec(app: Option<MsalApp>, caller: Option<AccessToken>, id: string,
                           grant: OboGrant, decode: Decoder, svc: SearchService): (r: Served<Dict>)
    ensures caller.None? ==> r == Served(Returned(NotAuthenticated), [])
    ensures caller.Some? ==>
              var obo := OboToken(app, caller.value.token, grant, decode);
              && obo.effects <= r.effects
              && (obo.outcome.Raised? ==> r == Served(Raised(obo.outcome.exn), obo.effects))
              && (obo.outcome.Returned? ==>
                    r.effects == obo.effects + [GetCall(GetRequest(id, AuthKeyword(obo.outcome.value)))]
                    && r.outcome.Returned?)
    ensures caller.Some? && OboToken(app, caller.value.token, grant, decode).outcome.Returned? ==>
              var request := r.effects[|r.effects| - 1].get;
              && (svc.get(request).Ok? ==> r.outcome.value == Project(svc.get(request).value))
              && (svc.get(request).Failed? ==> r.outcome.value == GetFailure(svc.get(request).message, id))
  {
    match caller
    case None => Served(Returned(NotAuthenticated), [])
    case Some(t) =>
      var obo := OboToken(app, t.token, grant, decode);
      match obo.outcome
      case Raised(e) => Served(Raised(e), obo.effects)
      case Returned(token) =>
        var request := GetRequest(id, AuthKeyword(token));
        var effects := obo.effects + [GetCall(request)];
        match svc.get(request)
        case Failed(msg) => Served(Returned(GetFailure(msg, id)), effects)
        case Ok(doc) => Served(Returned(Project(doc)), effects)
  }

  /** `suggest(query, top)`, always through the suggester "sg"; `top` is `None`
      when the caller omits it. */
  function SuggestSpec(app: Option<MsalApp>, caller: Option<AccessToken>, query: string, top: Option<int>,
                       grant: OboGrant, decode: Decoder, svc: SearchService): (r: Served<seq<Dict>>)
    ensures caller.None? ==> r == Served(Returned([NotAuthenticated]), [])
    ensures caller.Some? ==>
              var obo := OboToken(app, caller.value.token, grant, decode);
              && obo.effects <= r.effects
              && (obo.outcome.Raised? ==> r == Served(Raised(obo.outcome.exn), obo.effects))
              && (obo.outcome.Returned? ==>
                    r.effects == obo.effects + [SuggestCall(SuggestRequest(query, Suggester, top.GetOr(DefaultTop),
                                                                           AuthKeyword(obo.outcome.value)))])
    ensures caller.Some? && r.outcome.Returned? ==> Unannotated(r.outcome.value)
    ensures caller.Some? && OboToken(app, caller.value.token, grant, decode).outcome.Returned? ==>
              var request := r.effects[|r.effects| - 1].suggest;
              && (svc.suggest(request).Ok? <==> r.outcome.Returned?)
              && (svc.suggest(request).Ok? ==> r.outcome.value == ProjectRows(svc.suggest(request).value))
              && (svc.suggest(request).Failed? ==> r.outcome == Raised(Exn(Exception, svc.suggest(request).message)))
  {
    match caller
    case None => Served(Returned([NotAuthenticated]), [])
    case Some(t) =>
      var obo := OboToken(app, t.token, grant, decode);
      match obo.outcome
      case Raised(e) => Served(Raised(e), obo.effects)
      case Returned(token) =>
        var request := SuggestRequest(query, Suggester, top.GetOr(DefaultTop), AuthKeyword(token));
        var effects := obo.effects + [SuggestCall(request)];
        match svc.suggest(request)
        case Failed(msg) => Served(Raised(Exn(Exception, msg)), effects)
        case Ok(rows) => Served(Returned(ProjectRows(rows)), effects)
  }

  /** `get_user_info()`: five claims of the caller's token, `None` where absent. */
  function UserInfo(caller: Option<AccessToken>): (r: Dict)
    ensures caller.None? ==> r == NotAuthenticated
    ensures caller.Some? ==>
              r.Keys == {"azure_id", "email", "name", "job_title", "office_location"}
              && r["azure_id"] == DictGet(caller.value.claims, "sub")
              && r["email"] == DictGet(caller.value.claims, "email")
              && r["name"] == DictGet(caller.value.claims, "name")
              && r["job_title"] == DictGet(caller.value.claims, "job_title")
              && r["office_location"] == DictGet(caller.value.claims, "office_location")
  {
    match caller
    case None => NotAuthenticated
    case Some(t) =>
      map["azure_id" := DictGet(t.claims, "sub"),
          "email" := DictGet(t.claims, "email"),
          "name" := DictGet(t.claims, "name"),
          "job_title" := DictGet(t.claims, "job_title"),
          "office_location" := DictGet(t.claims, "office_location")]
  }

  // ---------------------------------------------------------------------
  // Properties of the handlers

  /** Without an access token every handler answers "Not authenticated" and makes
      no external call at all, in particular no exchange. */
  lemma {:induction false} UnauthenticatedMakesNoCalls(app: Option<MsalApp>, query: string, top: Option<int>,
                                                       id: string, grant: OboGrant, decode: Decoder,
                                                       svc: SearchService)
    ensures SearchSpec(app, None, query, top, grant, decode, svc) == Served(Returned([NotAuthenticated]), [])
    ensures SuggestSpec(app, None, query, top, grant, decode, svc) == Served(Returned([NotAuthenticated]), [])
    ensures GetDocumentSpec(app, None, id, grant, decode, svc) == Served(Returned(NotAuthenticated), [])
    ensures UserInfo(None) == NotAuthenticated
  {
  }

  /** The relay property for search: unless the caller's claims cannot be read
      (then nothing is called), the one exchange is made for exactly the
      caller's token; the store is called only if the exchange returned a token
      whose claims can be read, and then with exactly that token, the caller's
      query and `top` (5 when omitted); the answer is the store's rows
      projected, in order, or the store's error raised. */
  lemma {:induction false} SearchThreadsCallerToken(app: MsalApp, t: AccessToken, query: string, top: Option<int>,
                                                    grant: OboGrant, decode: Decoder, svc: SearchService)
    ensures var s := SearchSpec(Some(app), Some(t), query, top, grant, decode, svc);
            !Loggable(t.token, decode) ==> s == Served(Raised(Exn(AttributeError, NoGetMessage)), [])
    ensures var s := SearchSpec(Some(app), Some(t), query, top, grant, decode, svc);
            var result := grant(app, t.token, SearchScopes);
            Loggable(t.token, decode) ==>
              && 1 <= |s.effects| <= 2
              && s.effects[0] == OboExchange(app, t.token, SearchScopes)
              && (|s.effects| == 2 <==> "access_token" in result && Loggable(result["access_token"], decode))
              && (|s.effects| == 2 ==>
                    var request := SearchRequest(query, top.GetOr(DefaultTop), AuthKeyword(result["access_token"]));
                    && s.effects[1] == SearchCall(request)
                    && (svc.search(request).Ok? ==> s.outcome == Returned(ProjectRows(svc.search(request).value)))
                    && (svc.search(request).Failed? ==> s.outcome == Raised(Exn(Exception, svc.search(request).message))))
              && (|s.effects| == 1 ==> s.outcome.Raised?)
  {
  }

  /** The same for suggest, which always names the suggester "sg". */
  lemma {:induction false} SuggestThreadsCallerToken(app: MsalApp, t: AccessToken, query: string, top: Option<int>,
                                                     grant: OboGrant, decode: Decoder, svc: SearchService)
    ensures var s := SuggestSpec(Some(app), Some(t), query, top, grant, decode, svc);
            !Loggable(t.token, decode) ==> s == Served(Raised(Exn(AttributeError, NoGetMessage)), [])
    ensures var s := SuggestSpec(Some(app), Some(t), query, top, grant, decode, svc);
            var result := grant(app, t.token, SearchScopes);
            Loggable(t.token, decode) ==>
              && 1 <= |s.effects| <= 2
              && s.effects[0] == OboExchange(app, t.token, SearchScopes)
              && (|s.effects| == 2 <==> "access_token" in result && Loggable(result["access_token"], decode))
              && (|s.effects| == 2 ==>
                    var request := SuggestRequest(query, Suggester, top.GetOr(DefaultTop), AuthKeyword(result["access_token"]));
                    && s.effects[1] == SuggestCall(request)
                    && (svc.suggest(request).Ok? ==> s.outcome == Returned(ProjectRows(svc.suggest(request).value)))
                    && (svc.suggest(request).Failed? ==> s.outcome == Raised(Exn(Exception, svc.suggest(request).message))))
              && (|s.effects| == 1 ==> s.outcome.Raised?)
  {
  }

  /** `get_document` turns every store failure into `{"error": str(e), "id": id}`
      and never raises once the exchange succeeded. */
  lemma {:induction false} GetDocumentMapsStoreErrors(app: MsalApp, t: AccessToken, id: string,
                                                      grant: OboGrant, decode: Decoder, svc: SearchService)
    requires Loggable(t.token, decode)
    requires "access_token" in grant(app, t.token, SearchScopes)
    requires Loggable(grant(app, t.token, SearchScopes)["access_token"], decode)
    ensures var s := GetDocumentSpec(Some(app), Some(t), id, grant, decode, svc);
            var request := GetRequest(id, AuthKeyword(grant(app, t.token, SearchScopes)["access_token"]));
            && s.effects == [OboExchange(app, t.token, SearchScopes), GetCall(request)]
            && s.outcome.Returned?
            && (svc.get(request).Failed? ==> s.outcome.value == GetFailure(svc.get(request).message, id))
            && (svc.get(request).Ok? ==> s.outcome.value == Project(svc.get(request).value))
  {
  }

  /** A failed exchange stops the handler before the store: the exception names
      the error, defaulting to "unknown_error". */
  lemma {:induction false} FailedExchangeStopsSearch(app: MsalApp, t: AccessToken, query: string, top: Option<int>,
                                                     grant: OboGrant, decode: Decoder, svc: SearchService)
    requires Loggable(t.token, decode)
    requires "access_token" !in grant(app, t.token, SearchScopes)
    ensures var s := SearchSpec(Some(app), Some(t), query, top, grant, decode, svc);
            && s.effects == [OboExchange(app, t.token, SearchScopes)]
            && s.outcome.Raised?
            && StartsWith(s.outcome.exn.message, "OBO token acquisition failed: ")
  {
    var result := grant(app, t.token, SearchScopes);
    var msg := "OBO token acquisition failed: " + ResultGet(result, "error", "unknown_error") + ": "
               + ResultGet(result, "error_description", "Failed to acquire OBO token");
    assert msg[..|"OBO token acquisition failed: "|] == "OBO token acquisition failed: ";
  }

  /** The variables `main` requires, in the order it reports them. */
  const RequiredVars: seq<string> := [
    "AZURE_SEARCH_ENDPOINT", "AZURE_SEARCH_INDEX", "AZURE_SEARCH_ADMIN_KEY",
    "AZURE_CLIENT_ID", "AZURE_CLIENT_SECRET", "AZURE_TENANT_ID"]

  /** The check at the top of `main`. */
  function MainCheck(env: Env): (r: Option<Exn>)
    ensures r.None? <==> forall v :: v in RequiredVars ==> IsSet(env, v)
    ensures r.Some? ==> r.value == Exn(ValueError, "Missing required environment variables: "
                                                   + Join(MissingVars(env, RequiredVars), ", "))
  {
    MissingVarsEmpty(env, RequiredVars);
    var missing := MissingVars(env, RequiredVars);
    if missing != [] then
      Some(Exn(ValueError, "Missing required environment variables: " + Join(missing, ", ")))
    else None
  }

  /** The server process: its configuration and the lazily built MSAL client. */
  class Server {
    const env: Env
    const cfg: Config
    const authProvider: Option<AzureProvider>
    var msalApp: Option<MsalApp>

    constructor(env: Env)
      ensures this.env == env && cfg == ConfigFromEnv(env)
      ensures authProvider == AuthProviderFor(cfg)
      ensures msalApp.None?
    {
      this.env := env;
      cfg := ConfigFromEnv(env);
      authProvider := AuthProviderFor(ConfigFromEnv(env));
      msalApp := None;
    }

    method InitializeMsal()
      modifies this
      ensures msalApp == InitMsal(old(msalApp), cfg)
    {
      if msalApp.Some? {
        return;
      }
      if cfg.clientId != "" && cfg.tenantId != "" {
        msalApp := Some(MsalApp(cfg.clientId, Authority(cfg.tenantId), cfg.clientSecret));
      }
    }

    method GetOboToken(userToken: string, grant: OboGrant, decode: Decoder) returns (r: Served<string>)
      modifies this
      ensures msalApp == InitMsal(old(msalApp), cfg)
      ensures r == OboToken(msalApp, userToken, grant, decode)
    {
      InitializeMsal();
      if msalApp.None? {
        return Served(Raised(Exn(Exception, NotInitialisedMessage)), []);
      }
      var tokenClaims := DecodeJwtPayload(userToken, decode);
      if !tokenClaims.JObj? {
        return Served(Raised(Exn(AttributeError, NoGetMessage)), []);
      }
      var app := msalApp.value;
      var result := grant(app, userToken, SearchScopes);
      var effects := [OboExchange(app, userToken, SearchScopes)];
      if "access_token" in result {
        var oboClaims := DecodeJwtPayload(result["access_token"], decode);
        if !oboClaims.JObj? {
          return Served(Raised(Exn(AttributeError, NoGetMessage)), effects);
        }
        return Served(Returned(result["access_token"]), effects);
      }
      var error := ResultGet(result, "error", "unknown_error");
      var desc := ResultGet(result, "error_description", "Failed to acquire OBO token");
      r := Served(Raised(Exn(Exception, "OBO token acquisition failed: " + error + ": " + desc)), effects);
    }

    method SearchDocuments(query: string, top: Option<int>, caller: Option<AccessToken>,
                           grant: OboGrant, decode: Decoder, svc: SearchService) returns (r: Served<seq<Dict>>)
      modifies this
      ensures msalApp == if caller.None? then old(msalApp) else InitMsal(old(msalApp), cfg)
      ensures r == SearchSpec(msalApp, caller, query, top, grant, decode, svc)
    {
      if caller.None? {
        return Served(Returned([NotAuthenticated]), []);
      }
      var obo := GetOboToken(caller.value.token, grant, decode);
      if obo.outcome.Raised? {
        return Served(Raised(obo.outcome.exn), obo.effects);
      }
      var request := SearchRequest(query, top.GetOr(DefaultTop), AuthKeyword(obo.outcome.value));
      var effects := obo.effects + [SearchCall(request)];
      var reply := svc.search(request);
      if reply.Failed? {
        return Served(Raised(Exn(Exception, reply.message)), effects);
      }
      var documents := ProjectResults(reply.value);
      r := Served(Returned(documents), effects);
    }

    method GetDocument(id: string, caller: Option<AccessToken>,
                       grant: OboGrant, decode: Decoder, svc: SearchService) returns (r: Served<Dict>)
      modifies this
      ensures msalApp == if caller.None? then old(msalApp) else InitMsal(old(msalApp), cfg)
      ensures r == GetDocumentSpec(msalApp, caller, id, grant, decode, svc)
    {
      if caller.None? {
        return Served(Returned(NotAuthenticated), []);
      }
      var obo := GetOboToken(caller.value.token, grant, decode);
      if obo.outcome.Raised? {
        return Served(Raised(obo.outcome.exn), obo.effects);
      }
      var request := GetRequest(id, AuthKeyword(obo.outcome.value));
      var effects := obo.effects + [GetCall(request)];
      var reply := svc.get(request);
      if reply.Failed? {
        return Served(Returned(GetFailure(reply.message, id)), effects);
      }
      r := Served(Returned(Project(reply.value)), effects);
    }

    method Suggest(query: string, top: Option<int>, caller: Option<AccessToken>,
                   grant: OboGrant, decode: Decoder, svc: SearchService) returns (r: Served<seq<Dict>>)
      modifies this
      ensures msalApp == if caller.None? then old(msalApp) else InitMsal(old(msalApp), cfg)
      ensures r == SuggestSpec(msalApp, caller, query, top, grant, decode, svc)
    {
      if caller.None? {
        return Served(Returned([NotAuthenticated]), []);
      }
      var obo := GetOboToken(caller.value.token, grant, decode);
      if obo.outcome.Raised? {
        return Served(Raised(obo.outcome.exn), obo.effects);
      }
      var request := SuggestRequest(query, Suggester, top.GetOr(DefaultTop), AuthKeyword(obo.outcome.value));
      var effects := obo.effects + [SuggestCall(request)];
      var reply := svc.suggest(request);
      if reply.Failed? {
        return Served(Raised(Exn(Exception, reply.message)), effects);
      }
      var suggestions := ProjectResults(reply.value);
      r := Served(Returned(suggestions), effects);
    }

    /** `main`: refuse to start with a missing variable; otherwise build the MSAL
        client (serving itself is I/O). */
    method Start() returns (err: Option<Exn>)
      modifies this
      ensures err == MainCheck(env)
      ensures err.Some? ==> msalApp == old(msalApp)
      ensures err.None? ==> msalApp == InitMsal(old(msalApp), cfg)
    {
      err := MainCheck(env);
      if err.None? {
        InitializeMsal();
      }
    }
  }
}
