/** The MCP server variant behind an OAuth proxy with a JWT verifier
    (`src/enterprise_mcp_auth/server/ai_search_mcp_server.py`).

    Module state: three lazily built singletons, the JWT verifier, the OAuth
    proxy wrapping it, and the MSAL confidential client. Each tool handler takes
    the caller's token from the proxy (there is no proxy: the attribute access
    fails), exchanges it on behalf of the caller, stores the downstream token on a
    fresh search client as `_obo_token`, and sends it to the store in the header
    `x-ms-query-source-authorization: Bearer <token>`. */
module SrcServer {
  import opened PyRuntime
  import opened Relay

  datatype Config = Config(
    searchEndpoint: string, searchIndex: string, adminKey: string,
    clientId: string, clientSecret: string, tenantId: string,
    jwtIssuer: string, jwtAudience: string, jwksUri: string)

  /** `JWKS_URI`: the variable when set and non-empty, otherwise derived from the
      tenant when that is non-empty, otherwise empty. */
  function JwksUri(env: Env): (r: string)
    ensures IsSet(env, "JWKS_URI") ==> r == env["JWKS_URI"]
    ensures !IsSet(env, "JWKS_URI") && IsSet(env, "AZURE_TENANT_ID") ==>
              r == "https://login.microsoftonline.com/" + env["AZURE_TENANT_ID"] + "/discovery/v2.0/keys"
    ensures !IsSet(env, "JWKS_URI") && !IsSet(env, "AZURE_TENANT_ID") ==> r == ""
  {
    var uri := GetEnvOr(env, "JWKS_URI", "");
    var tenant := GetEnvOr(env, "AZURE_TENANT_ID", "");
    if uri == "" && tenant != "" then
      "https://login.microsoftonline.com/" + tenant + "/discovery/v2.0/keys"
    else uri
  }

  function ConfigFromEnv(env: Env): (cfg: Config)
    ensures cfg.clientId == GetEnvOr(env, "AZURE_CLIENT_ID", "")
    ensures cfg.tenantId == GetEnvOr(env, "AZURE_TENANT_ID", "")
    ensures cfg.jwksUri == JwksUri(env)
  {
    Config(
      GetEnvOr(env, "AZURE_SEARCH_ENDPOINT", ""),
      GetEnvOr(env, "AZURE_SEARCH_INDEX", "documents"),
      GetEnvOr(env, "AZURE_SEARCH_ADMIN_KEY", ""),
      GetEnvOr(env, "AZURE_CLIENT_ID", ""),
      GetEnvOr(env, "AZURE_CLIENT_SECRET", ""),
      GetEnvOr(env, "AZURE_TENANT_ID", ""),
      GetEnvOr(env, "JWT_ISSUER", ""),
      GetEnvOr(env, "JWT_AUDIENCE", ""),
      JwksUri(env))
  }

  /** Whenever the tenant is configured, so is a key-set location. */
  lemma TenantImpliesJwks(env: Env)
    ensures ConfigFromEnv(env).tenantId != "" ==> ConfigFromEnv(env).jwksUri != ""
  {
  }

  datatype JwtVerifier = JwtVerifier(jwksUri: string, issuer: string, audience: string)
  datatype OAuthProxy = OAuthProxy(verifier: JwtVerifier)

  /** The three singletons, plus the proxy installed on the FastMCP server by `mcp.use_auth`. */
  datatype AuthGlobals = AuthGlobals(
    jwtVerifier: Option<JwtVerifier>, oauthProxy: Option<OAuthProxy>,
    msalApp: Option<MsalApp>, serverAuth: Option<OAuthProxy>)

  const Uninitialised := AuthGlobals(None, None, None, None)

  /** The proxy (and the one the server uses) exists exactly when the verifier
      does, and wraps that verifier. */
  predicate Consistent(g: AuthGlobals) {
    && (g.oauthProxy.Some? <==> g.jwtVerifier.Some?)
    && (g.oauthProxy.Some? ==> g.oauthProxy.value.verifier == g.jwtVerifier.value)
    && g.serverAuth == g.oauthProxy
  }

  /** `initialize_auth`. */
  function InitAuth(g: AuthGlobals, cfg: Config): (r: AuthGlobals)
    requires Consistent(g)
    ensures Consistent(r)
    ensures g.jwtVerifier.Some? ==> r == g
    ensures g.jwtVerifier.None? ==>
              (r.jwtVerifier.Some? <==> cfg.jwksUri != "")
              && (r.jwtVerifier.Some? ==> r.jwtVerifier.value == JwtVerifier(cfg.jwksUri, cfg.jwtIssuer, cfg.jwtAudience))
              && r.msalApp == (if cfg.clientId != "" && cfg.tenantId != ""
                               then Some(MsalApp(cfg.clientId, Authority(cfg.tenantId), cfg.clientSecret))
                               else g.msalApp)
  {
    if g.jwtVerifier.Some? then g
    else
      var g1 :=
        if cfg.jwksUri != "" then
          var v := JwtVerifier(cfg.jwksUri, cfg.jwtIssuer, cfg.jwtAudience);
          g.(jwtVerifier := Some(v), oauthProxy := Some(OAuthProxy(v)), serverAuth := Some(OAuthProxy(v)))
        else g;
      if cfg.clientId != "" && cfg.tenantId != "" then
        g1.(msalApp := Some(MsalApp(cfg.clientId, Authority(cfg.tenantId), cfg.clientSecret)))
      else g1
  }

  /** Initialising twice is initialising once. */
  lemma InitAuthIdempotent(g: AuthGlobals, cfg: Config)
    requires Consistent(g)
    ensures InitAuth(InitAuth(g, cfg), cfg) == InitAuth(g, cfg)
  {
  }

  /** From the process's initial state, with the configuration the environment
      gives, an MSAL client never exists without the verifier: a tenant always
      yields a key-set location. */
  lemma {:induction false} MsalImpliesVerifier(env: Env)
    ensures var g := InitAuth(Uninitialised, ConfigFromEnv(env));
            g.msalApp.Some? ==> g.jwtVerifier.Some? && g.oauthProxy.Some?
  {
    TenantImpliesJwks(env);
  }

  /** `get_obo_token`, given the app as it is after `initialize_auth`. */
  function OboToken(app: Option<MsalApp>, userToken: string, grant: OboGrant): (r: Served<string>)
    ensures app.None? ==> r == Served(Raised(Exn(Exception, NotInitialisedMessage)), [])
    ensures app.Some? ==>
              r.effects == [OboExchange(app.value, userToken, SearchScopes)]
              && r.outcome == OboResultToken(grant(app.value, userToken, SearchScopes), " - ")
  {
    match app
    case None => Served(Raised(Exn(Exception, NotInitialisedMessage)), [])
    case Some(a) =>
      Served(OboResultToken(grant(a, userToken, SearchScopes), " - "), [OboExchange(a, userToken, SearchScopes)])
  }

  /** The header that carries the downstream token to the store. */
  function BearerHeaders(token: string): (h: map<string, string>)
    ensures h.Keys == {QuerySourceHeader}
    ensures StartsWith(h[QuerySourceHeader], "Bearer ") && h[QuerySourceHeader][7..] == token
  {
    map[QuerySourceHeader := "Bearer " + token]
  }

  const NoProxyMessage := "'NoneType' object has no attribute 'get_current_token'"

  /** `search_documents(query, top)`; `currentToken` is what the proxy reports
      as the caller's token, `top` is `None` when the caller omits it. Only the
      token the exchange returned reaches the store, as a bearer header in the
      one call that follows the exchange. */
  function SearchSpec(g: AuthGlobals, cfg: Config, currentToken: string, query: string, top: Option<int>,
                      grant: OboGrant, svc: SearchService): (r: Served<seq<Dict>>)
    requires Consistent(g)
    ensures g.oauthProxy.None? ==> r == Served(Raised(Exn(AttributeError, NoProxyMessage)), [])
    ensures g.oauthProxy.Some? ==>
              var obo := OboToken(g.msalApp, currentToken, grant);
              && obo.effects <= r.effects
              && (obo.outcome.Raised? ==> r == Served(Raised(obo.outcome.exn), obo.effects))
              && (obo.outcome.Returned? ==>
                    r.effects == obo.effects + [SearchCall(SearchRequest(query, top.GetOr(DefaultTop),
                                                                         AuthHeaders(BearerHeaders(obo.outcome.value))))])
    ensures r.outcome.Returned? ==> Unannotated(r.outcome.value)
    ensures g.oauthProxy.Some? && OboToken(g.msalApp, currentToken, grant).outcome.Returned? ==>
              var request := r.effects[|r.effects| - 1].search;
              && (svc.search(request).Ok? <==> r.outcome.Returned?)
              && (svc.search(request).Ok? ==> r.outcome.value == ProjectRows(svc.search(request).value))
              && (svc.search(request).Failed? ==> r.outcome == Raised(Exn(Exception, svc.search(request).message)))
  {
    if g.oauthProxy.None? then Served(Raised(Exn(AttributeError, NoProxyMessage)), [])
    else
      var obo := OboToken(InitAuth(g, cfg).msalApp, currentToken, grant);
      match obo.outcome
      case Raised(e) => Served(Raised(e), obo.effects)
      case Returned(token) =>
        var request := SearchRequest(query, top.GetOr(DefaultTop), AuthHeaders(BearerHeaders(token)));
        var effects := obo.effects + [SearchCall(request)];
        match svc.search(request)
        case Failed(msg) => Served(Raised(Exn(Exception, msg)), effects)
        case Ok(rows) => Served(Returned(ProjectRows(rows)), effects)
  }

  /** `get_document(id)`: store failures become `{"error": str(e), "id": id}`;
      a failed exchange is not caught. */
  function GetDocumentSpec(g: AuthGlobals, cfg: Config, currentToken: string, id: string,
                           grant: OboGrant, svc: SearchService): (r: Served<Dict>)
    requires Consistent(g)
    ensures g.oauthProxy.None? ==> r == Served(Raised(Exn(AttributeError, NoProxyMessage)), [])
    ensures g.oauthProxy.Some? ==>
              var obo := OboToken(g.msalApp, currentToken, grant);
              && obo.effects <= r.effects
              && (obo.outcome.Raised? ==> r == Served(Raised(obo.outcome.exn), obo.effects))
              && (obo.outcome.Returned? ==>
                    r.effects == obo.effects + [GetCall(GetRequest(id, AuthHeaders(BearerHeaders(obo.outcome.value))))]
                    && r.outcome.Returned?)
    ensures g.oauthProxy.Some? && OboToken(g.msalApp, currentToken, grant).outcome.Returned? ==>
              var request := r.effects[|r.effects| - 1].get;
              && (svc.get(request).Ok? ==> r.outcome.value == Project(svc.get(request).value))
              && (svc.get(request).Failed? ==> r.outcome.value == GetFailure(svc.get(request).message, id))
  {
    if g.oauthProxy.None? then Served(Raised(Exn(AttributeError, NoProxyMessage)), [])
    else
      var obo := OboToken(InitAuth(g, cfg).msalApp, currentToken, grant);
      match obo.outcome
      case Raised(e) => Served(Raised(e), obo.effects)
      case Returned(token) =>
        var request := GetRequest(id, AuthHeaders(BearerHeaders(token)));
        var effects := obo.effects + [GetCall(request)];
        match svc.get(request)
        case Failed(msg) => Served(Returned(GetFailure(msg, id)), effects)
        case Ok(doc) => Served(Returned(Project(doc)), effects)
  }

  /** `suggest(query, top)`, always through the suggester "sg"; `top` is `None`
      when the caller omits it. */
  function SuggestSpec(g: AuthGlobals, cfg: Config, currentToken: string, query: string, top: Option<int>,
                       grant: OboGrant, svc: SearchService): (r: Served<seq<Dict>>)
    requires Consistent(g)
    ensures g.oauthProxy.None? ==> r == Served(Raised(Exn(AttributeError, NoProxyMessage)), [])
    ensures g.oauthProxy.Some? ==>
              var obo := OboToken(g.msalApp, currentToken, grant);
              && obo.effects <= r.effects
              && (obo.outcome.Raised? ==> r == Served(Raised(obo.outcome.exn), obo.effects))
              && (obo.outcome.Returned? ==>
                    r.effects == obo.effects + [SuggestCall(SuggestRequest(query, Suggester, top.GetOr(DefaultTop),
                                                                           AuthHeaders(BearerHeaders(obo.outcome.value))))])
    ensures r.outcome.Returned? ==> Unannotated(r.outcome.value)
    ensures g.oauthProxy.Some? && OboToken(g.msalApp, currentToken, grant).outcome.Returned? ==>
              var request := r.effects[|r.effects| - 1].suggest;
              && (svc.suggest(request).Ok? <==> r.outcome.Returned?)
              && (svc.suggest(request).Ok? ==> r.outcome.value == ProjectRows(svc.suggest(request).value))
              && (svc.suggest(request).Failed? ==> r.outcome == Raised(Exn(Exception, svc.suggest(request).message)))
  {
    if g.oauthProxy.None? then Served(Raised(Exn(AttributeError, NoProxyMessage)), [])
    else
      var obo := OboToken(InitAuth(g, cfg).msalApp, currentToken, grant);
      match obo.outcome
      case Raised(e) => Served(Raised(e), obo.effects)
      case Returned(token) =>
        var request := SuggestRequest(query, Suggester, top.GetOr(DefaultTop), AuthHeaders(BearerHeaders(token)));
        var effects := obo.effects + [SuggestCall(request)];
        match svc.suggest(request)
        case Failed(msg) => Served(Raised(Exn(Exception, msg)), effects)
        case Ok(rows) => Served(Returned(ProjectRows(rows)), effects)
  }

  /** Without a proxy every handler fails on the missing proxy and calls nothing. */
  lemma {:induction false} NoProxyNoCalls(g: AuthGlobals, cfg: Config, currentToken: string, query: string,
                                          top: Option<int>, id: string, grant: OboGrant, svc: SearchService)
    requires Consistent(g) && g.oauthProxy.None?
    ensures SearchSpec(g, cfg, currentToken, query, top, grant, svc)
            == Served(Raised(Exn(AttributeError, NoProxyMessage)), [])
    ensures GetDocumentSpec(g, cfg, currentToken, id, grant, svc)
            == Served(Raised(Exn(AttributeError, NoProxyMessage)), [])
    ensures SuggestSpec(g, cfg, currentToken, query, top, grant, svc)
            == Served(Raised(Exn(AttributeError, NoProxyMessage)), [])
  {
  }

  /** The relay property: the exchange is made for exactly the proxy's current
      token, and every store request carries "Bearer " followed by exactly the
      token that exchange returned, with the caller's `top` (5 when omitted). */
  lemma {:induction false} HandlersThreadCallerToken(g: AuthGlobals, cfg: Config, currentToken: string,
                                                     query: string, top: Option<int>, id: string,
                                                     grant: OboGrant, svc: SearchService)
    requires Consistent(g) && g.oauthProxy.Some? && g.msalApp.Some?
    ensures var app := g.msalApp.value;
            var result := grant(app, currentToken, SearchScopes);
            var s := SearchSpec(g, cfg, currentToken, query, top, grant, svc);
            var d := GetDocumentSpec(g, cfg, currentToken, id, grant, svc);
            var u := SuggestSpec(g, cfg, currentToken, query, top, grant, svc);
            && s.effects[0] == d.effects[0] == u.effects[0] == OboExchange(app, currentToken, SearchScopes)
            && ("access_token" in result <==> |s.effects| == 2 && |d.effects| == 2 && |u.effects| == 2)
            && ("access_token" in result ==>
                  var auth := AuthHeaders(map[QuerySourceHeader := "Bearer " + result["access_token"]]);
                  && s.effects[1] == SearchCall(SearchRequest(query, top.GetOr(DefaultTop), auth))
                  && d.effects[1] == GetCall(GetRequest(id, auth))
                  && u.effects[1] == SuggestCall(SuggestRequest(query, Suggester, top.GetOr(DefaultTop), auth)))
  {
  }

  const RequiredVars: seq<string> := [
    "AZURE_SEARCH_ENDPOINT", "AZURE_SEARCH_INDEX", "AZURE_SEARCH_ADMIN_KEY",
    "AZURE_CLIENT_ID", "AZURE_CLIENT_SECRET", "AZURE_TENANT_ID",
    "JWT_ISSUER", "JWT_AUDIENCE"]

  function MainCheck(env: Env): (r: Option<Exn>)
    ensures r.None? <==> forall v :: v in RequiredVars ==> IsSet(env, v)
    ensures r.Some? ==> r.value == Exn(ValueError, "Missing required environment variables: "
                                                   + Join(MissingVars(env, RequiredVars), ", "))
  {
    MissingVarsEmpty(env, RequiredVars);
    var missing := MissingVars(env, RequiredVars);
    if missing != [] then
      Some(Exn(ValueError, "Missing required environment variables: " + Join(missing, ", ")))
    else None
  }

  /** A `SearchClient` built with the admin key, plus the ad-hoc `_obo_token`
      attribute `get_search_client_with_obo` sets on it. */
  class SearchClient {
    const endpoint: string
    const indexName: string
    const adminKey: string
    var oboToken: Option<string>

    constructor(endpoint: string, indexName: string, adminKey: string)
      ensures this.endpoint == endpoint && this.indexName == indexName && this.adminKey == adminKey
      ensures oboToken.None?
    {
      this.endpoint := endpoint;
      this.indexName := indexName;
      this.adminKey := adminKey;
      oboToken := None;
    }
  }

  class Server {
    const env: Env
    const cfg: Config
    var jwtVerifier: Option<JwtVerifier>
    var oauthProxy: Option<OAuthProxy>
    var msalApp: Option<MsalApp>
    var serverAuth: Option<OAuthProxy>

    function Globals(): AuthGlobals
      reads this
    {
      AuthGlobals(jwtVerifier, oauthProxy, msalApp, serverAuth)
    }

    ghost predicate Valid()
      reads this
    {
      Consistent(Globals())
    }

    constructor(env: Env)
      ensures Valid()
      ensures this.env == env && cfg == ConfigFromEnv(env)
      ensures Globals() == Uninitialised
    {
      this.env := env;
      cfg := ConfigFromEnv(env);
      jwtVerifier, oauthProxy, msalApp, serverAuth := None, None, None, None;
    }

    method InitializeAuth()
      requires Valid()
      modifies this
      ensures Valid()
      ensures Globals() == InitAuth(old(Globals()), cfg)
    {
      if jwtVerifier.Some? {
        return;
      }
      if cfg.jwksUri != "" {
        var verifier := JwtVerifier(cfg.jwksUri, cfg.jwtIssuer, cfg.jwtAudience);
        jwtVerifier := Some(verifier);
        oauthProxy := Some(OAuthProxy(verifier));
        serverAuth := oauthProxy;
      }
      if cfg.clientId != "" && cfg.tenantId != "" {
        msalApp := Some(MsalApp(cfg.clientId, Authority(cfg.tenantId), cfg.clientSecret));
      }
    }

    method GetOboToken(userToken: string, grant: OboGrant) returns (r: Served<string>)
      requires Valid()
      modifies this
      ensures Valid()
      ensures Globals() == InitAuth(old(Globals()), cfg)
      ensures r == OboToken(msalApp, userToken, grant)
    {
      InitializeAuth();
      if msalApp.None? {
        return Served(Raised(Exn(Exception, NotInitialisedMessage)), []);
      }
      var app := msalApp.value;
      var result := grant(app, userToken, SearchScopes);
      var effects := [OboExchange(app, userToken, SearchScopes)];
      if "access_token" in result {
        return Served(Returned(result["access_token"]), effects);
      }
      var error := ResultGet(result, "error", "unknown_error");
      var desc := ResultGet(result, "error_description", "Failed to acquire OBO token");
      r := Served(Raised(Exn(Exception, "OBO token acquisition failed: " + error + " - " + desc)), effects);
    }

    /** `get_search_client_with_obo`: the client it returns carries, as its
        `_obo_token`, exactly the token the exchange returned. */
    method GetSearchClientWithObo(userToken: string, grant: OboGrant)
      returns (client: Outcome<SearchClient>, effects: seq<Effect>)
      requires Valid()
      modifies this
      ensures Valid()
      ensures Globals() == InitAuth(old(Globals()), cfg)
      ensures var obo := OboToken(msalApp, userToken, grant);
              && effects == obo.effects
              && (client.Raised? <==> obo.outcome.Raised?)
              && (client.Raised? ==> client.exn == obo.outcome.exn)
              && (client.Returned? ==>
                    fresh(client.value)
                    && client.value.oboToken == Some(obo.outcome.value)
                    && client.value.endpoint == cfg.searchEndpoint
                    && client.value.indexName == cfg.searchIndex
                    && client.value.adminKey == cfg.adminKey)
    {
      var obo := GetOboToken(userToken, grant);
      effects := obo.effects;
      if obo.outcome.Raised? {
        return Raised(obo.outcome.exn), effects;
      }
      var c := new SearchClient(cfg.searchEndpoint, cfg.searchIndex, cfg.adminKey);
      c.oboToken := Some(obo.outcome.value);
      client := Returned(c);
    }

    method SearchDocuments(query: string, top: Option<int>, currentToken: string,
                           grant: OboGrant, svc: SearchService) returns (r: Served<seq<Dict>>)
      requires Valid()
      modifies this
      ensures Valid() && Globals() == old(Globals())
      ensures r == SearchSpec(old(Globals()), cfg, currentToken, query, top, grant, svc)
    {
      if oauthProxy.None? {
        return Served(Raised(Exn(AttributeError, NoProxyMessage)), []);
      }
      var client, effects := GetSearchClientWithObo(currentToken, grant);
      if client.Raised? {
        return Served(Raised(client.exn), effects);
      }
      var oboToken := client.value.oboToken.value;
      var request := SearchRequest(query, top.GetOr(DefaultTop), AuthHeaders(map[QuerySourceHeader := "Bearer " + oboToken]));
      effects := effects + [SearchCall(request)];
      var reply := svc.search(request);
      if reply.Failed? {
        return Served(Raised(Exn(Exception, reply.message)), effects);
      }
      var documents := ProjectResults(reply.value);
      r := Served(Returned(documents), effects);
    }

    method GetDocument(id: string, currentToken: string,
                       grant: OboGrant, svc: SearchService) returns (r: Served<Dict>)
      requires Valid()
      modifies this
      ensures Valid() && Globals() == old(Globals())
      ensures r == GetDocumentSpec(old(Globals()), cfg, currentToken, id, grant, svc)
    {
      if oauthProxy.None? {
        return Served(Raised(Exn(AttributeError, NoProxyMessage)), []);
      }
      var client, effects := GetSearchClientWithObo(currentToken, grant);
      if client.Raised? {
        return Served(Raised(client.exn), effects);
      }
      var oboToken := client.value.oboToken.value;
      var request := GetRequest(id, AuthHeaders(map[QuerySourceHeader := "Bearer " + oboToken]));
      effects := effects + [GetCall(request)];
      var reply := svc.get(request);
      if reply.Failed? {
        return Served(Returned(GetFailure(reply.message, id)), effects);
      }
      r := Served(Returned(Project(reply.value)), effects);
    }

    method Suggest(query: string, top: Option<int>, currentToken: string,
                   grant: OboGrant, svc: SearchService) returns (r: Served<seq<Dict>>)
      requires Valid()
      modifies this
      ensures Valid() && Globals() == old(Globals())
      ensures r == SuggestSpec(old(Globals()), cfg, currentToken, query, top, grant, svc)
    {
      if oauthProxy.None? {
        return Served(Raised(Exn(AttributeError, NoProxyMessage)), []);
      }
      var client, effects := GetSearchClientWithObo(currentToken, grant);
      if client.Raised? {
        return Served(Raised(client.exn), effects);
      }
      var oboToken := client.value.oboToken.value;
      var request := SuggestRequest(query, Suggester, top.GetOr(DefaultTop), AuthHeaders(map[QuerySourceHeader := "Bearer " + oboToken]));
      effects := effects + [SuggestCall(request)];
      var reply := svc.suggest(request);
      if reply.Failed? {
        return Served(Raised(Exn(Exception, reply.message)), effects);
      }
      var suggestions := ProjectResults(reply.value);
      r := Served(Returned(suggestions), effects);
    }

    method Start() returns (err: Option<Exn>)
      requires Valid()
      modifies this
      ensures Valid()
      ensures err == MainCheck(env)
      ensures err.Some? ==> Globals() == old(Globals())
      ensures err.None? ==> Globals() == InitAuth(old(Globals()), cfg)
    {
      err := MainCheck(env);
      if err.None? {
        InitializeAuth();
      }
    }
  }
}
