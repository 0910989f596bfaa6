/** Client-side token acquisition with MSAL (`src/enterprise_mcp_auth/client/auth.py`).

    `acquire_token` picks the confidential-client flow when a client secret is
    given and the device-code flow otherwise. Both look in the token cache first
    (silent acquisition for the first cached account) and fall back to a grant.
    MSAL is an oracle, `Idp`, and every call made to it is recorded as an
    `MsalCall`, so that "no grant when the cache answers" can be stated. */
module ClientAuth {
  import opened PyRuntime
  import opened Relay

  /** The MSAL application object each flow builds. */
  datatype App =
    | ConfidentialApp(clientId: string, authority: string, clientCredential: string)
    | PublicApp(clientId: string, authority: string)

  /** Answers of the identity provider. `silent` is `None` for a falsy result
      (`None` or an empty dict). */
  datatype Idp = Idp(
    accounts: App -> seq<string>,
    silent: (App, seq<string>, string) -> Option<TokenResult>,
    forClient: (App, seq<string>) -> TokenResult,
    initiateFlow: (App, seq<string>) -> TokenResult,
    byDeviceFlow: (App, TokenResult) -> TokenResult)

  datatype MsalCall =
    | GetAccounts
    | AcquireSilent(scopes: seq<string>, account: string)
    | AcquireForClient(scopes: seq<string>)
    | InitiateDeviceFlow(scopes: seq<string>)
    | AcquireByDeviceFlow(flow: TokenResult)

  /** A call that obtains a new token rather than reading the cache. */
  predicate IsGrant(c: MsalCall) {
    c.AcquireForClient? || c.AcquireByDeviceFlow?
  }

  predicate NoGrant(calls: seq<MsalCall>) {
    forall i :: 0 <= i < |calls| ==> !IsGrant(calls[i])
  }

  /** The Python outcome of one acquisition and the MSAL calls it made. */
  datatype Acquired = Acquired(outcome: Outcome<string>, calls: seq<MsalCall>)

  /** What the cache step found, and the calls it took. */
  datatype Lookup = Lookup(token: Option<string>, calls: seq<MsalCall>)

  /** The silent result for the first cached account carries an access token. */
  predicate CacheHit(app: App, scopes: seq<string>, idp: Idp) {
    var accounts := idp.accounts(app);
    accounts != []
    && var s := idp.silent(app, scopes, accounts[0]);
    s.Some? && "access_token" in s.value
  }

  /** The token the cache holds, when `CacheHit`. */
  function CachedToken(app: App, scopes: seq<string>, idp: Idp): string
    requires CacheHit(app, scopes, idp)
  {
    idp.silent(app, scopes, idp.accounts(app)[0]).value["access_token"]
  }

  /** "Try cache first if enabled": the accounts query and, when there is an
      account, one silent acquisition for the first of them. */
  function CacheLookup(app: App, scopes: seq<string>, useCache: bool, idp: Idp): (r: Lookup)
    ensures NoGrant(r.calls)
    ensures !useCache ==> r.calls == []
    ensures r.token.Some? <==> useCache && CacheHit(app, scopes, idp)
    ensures r.token.Some? ==> r.token.value == CachedToken(app, scopes, idp)
  {
    if !useCache then Lookup(None, [])
    else
      var accounts := idp.accounts(app);
      if accounts == [] then Lookup(None, [GetAccounts])
      else
        var calls := [GetAccounts, AcquireSilent(scopes, accounts[0])];
        match idp.silent(app, scopes, accounts[0])
        case Some(result) =>
          if "access_token" in result then Lookup(Some(result["access_token"]), calls)
          else Lookup(None, calls)
        case None => Lookup(None, calls)
  }

  /** The token of a grant result, or the exception raised for it: `prefix` names
      the flow, the error defaults to "unknown_error" and the description to
      "Failed to acquire token". */
  function GrantOutcome(result: TokenResult, prefix: string): (r: Outcome<string>)
    ensures r.Returned? <==> "access_token" in result
    ensures r.Returned? ==> r.value == result["access_token"]
    ensures r.Raised? ==> r.exn.kind == Exception
                          && StartsWith(r.exn.message, prefix + ResultGet(result, "error", "unknown_error") + " - ")
    ensures r.Raised? ==>
              r.exn == Exn(Exception, prefix + ResultGet(result, "error", "unknown_error") + " - "
                                      + ResultGet(result, "error_description", "Failed to acquire token"))
  {
    if "access_token" in result then Returned(result["access_token"])
    else
      var error := ResultGet(result, "error", "unknown_error");
      var desc := ResultGet(result, "error_description", "Failed to acquire token");
      var lead := prefix + error + " - ";
      assert (lead + desc)[..|lead|] == lead;
      Raised(Exn(Exception, lead + desc))
  }

  /** `_acquire_token_confidential`. */
  function AcquireConfidential(clientId: string, authority: string, secret: string,
                               scopes: seq<string>, useCache: bool, idp: Idp): (r: Acquired)
    ensures var app := ConfidentialApp(clientId, authority, secret);
            var lookup := CacheLookup(app, scopes, useCache, idp);
            && (lookup.token.Some? ==> r == Acquired(Returned(lookup.token.value), lookup.calls))
            && (lookup.token.None? ==>
                  r.calls == lookup.calls + [AcquireForClient(scopes)]
                  && r.outcome == GrantOutcome(idp.forClient(app, scopes), "Token acquisition failed: "))
  {
    var app := ConfidentialApp(clientId, authority, secret);
    var lookup := CacheLookup(app, scopes, useCache, idp);
    if lookup.token.Some? then Acquired(Returned(lookup.token.value), lookup.calls)
    else
      var result := idp.forClient(app, scopes);
      Acquired(GrantOutcome(result, "Token acquisition failed: "), lookup.calls + [AcquireForClient(scopes)])
  }

  /** `_acquire_token_device_code`. A flow without "user_code" raises
      ValueError before any wait for the user; a flow without "message" fails on
      the subscript that prints it. */
  function AcquireDeviceCode(clientId: string, authority: string,
                             scopes: seq<string>, useCache: bool, idp: Idp): (r: Acquired)
    ensures var app := PublicApp(clientId, authority);
            var lookup := CacheLookup(app, scopes, useCache, idp);
            var flow := idp.initiateFlow(app, scopes);
            && (lookup.token.Some? ==> r == Acquired(Returned(lookup.token.value), lookup.calls))
            && (lookup.token.None? && "user_code" !in flow ==>
                  r.calls == lookup.calls + [InitiateDeviceFlow(scopes)]
                  && r.outcome == Raised(Exn(ValueError, "Failed to create device flow: "
                                                        + ResultGet(flow, "error_description", "Unknown error"))))
            && (lookup.token.None? && "user_code" in flow && "message" !in flow ==>
                  r.calls == lookup.calls + [InitiateDeviceFlow(scopes)]
                  && r.outcome == Raised(Exn(KeyError, "'message'")))
            && (lookup.token.None? && "user_code" in flow && "message" in flow ==>
                  r.calls == lookup.calls + [InitiateDeviceFlow(scopes), AcquireByDeviceFlow(flow)]
                  && r.outcome == GrantOutcome(idp.byDeviceFlow(app, flow), "Authentication failed: "))
  {
    var app := PublicApp(clientId, authority);
    var lookup := CacheLookup(app, scopes, useCache, idp);
    if lookup.token.Some? then Acquired(Returned(lookup.token.value), lookup.calls)
    else
      var flow := idp.initiateFlow(app, scopes);
      var calls := lookup.calls + [InitiateDeviceFlow(scopes)];
      if "user_code" !in flow then
        Acquired(Raised(Exn(ValueError, "Failed to create device flow: "
                                        + ResultGet(flow, "error_description", "Unknown error"))), calls)
      else if "message" !in flow then
        Acquired(Raised(Exn(KeyError, "'message'")), calls)
      else
        var result := idp.byDeviceFlow(app, flow);
        Acquired(GrantOutcome(result, "Authentication failed: "), calls + [AcquireByDeviceFlow(flow)])
  }

  /** `if client_secret:` on an optional string. */
  predicate SecretGiven(clientSecret: Option<string>) {
    clientSecret.Some? && clientSecret.value != ""
  }

  /** `acquire_token`: the confidential flow exactly when a non-empty secret is
      given, the device-code flow otherwise, both against
      "https://login.microsoftonline.com/" + tenant. */
  function AcquireToken(clientId: string, tenantId: string, scopes: seq<string>,
                        clientSecret: Option<string>, useCache: bool, idp: Idp): (r: Acquired)
    ensures SecretGiven(clientSecret) ==>
              r == AcquireConfidential(clientId, Authority(tenantId), clientSecret.value, scopes, useCache, idp)
    ensures !SecretGiven(clientSecret) ==>
              r == AcquireDeviceCode(clientId, Authority(tenantId), scopes, useCache, idp)
  {
    var authority := "https://login.microsoftonline.com/" + tenantId;
    if clientSecret.Some? && clientSecret.value != "" then
      AcquireConfidential(clientId, authority, clientSecret.value, scopes, useCache, idp)
    else
      AcquireDeviceCode(clientId, authority, scopes, useCache, idp)
  }

  /** The app `acquire_token` talks to. */
  function AppFor(clientId: string, tenantId: string, clientSecret: Option<string>): App {
    if SecretGiven(clientSecret) then ConfidentialApp(clientId, Authority(tenantId), clientSecret.value)
    else PublicApp(clientId, Authority(tenantId))
  }

  /** Cache first: when the cache is enabled and answers, its token is returned
      and no grant of either kind is requested. */
  lemma {:induction false} CacheAnswersFirst(clientId: string, tenantId: string, scopes: seq<string>,
                                             clientSecret: Option<string>, idp: Idp)
    requires CacheHit(AppFor(clientId, tenantId, clientSecret), scopes, idp)
    ensures var r := AcquireToken(clientId, tenantId, scopes, clientSecret, true, idp);
            r.outcome == Returned(CachedToken(AppFor(clientId, tenantId, clientSecret), scopes, idp))
            && NoGrant(r.calls)
  {
    var app := AppFor(clientId, tenantId, clientSecret);
    var lookup := CacheLookup(app, scopes, true, idp);
    assert lookup.token.Some?;
  }

  /** Whatever path is taken, at most one grant is requested and it is the last
      call; a returned token either came from the cache (no grant) or from that
      grant's result. */
  lemma {:induction false} GrantIsLast(clientId: string, tenantId: string, scopes: seq<string>,
                                       clientSecret: Option<string>, useCache: bool, idp: Idp)
    ensures var r := AcquireToken(clientId, tenantId, scopes, clientSecret, useCache, idp);
            && |r.calls| > 0 ==> NoGrant(r.calls[..|r.calls| - 1])
    ensures var r := AcquireToken(clientId, tenantId, scopes, clientSecret, useCache, idp);
            var app := AppFor(clientId, tenantId, clientSecret);
            r.outcome.Returned? && NoGrant(r.calls) ==>
              useCache && CacheHit(app, scopes, idp) && r.outcome.value == CachedToken(app, scopes, idp)
  {
    var r := AcquireToken(clientId, tenantId, scopes, clientSecret, useCache, idp);
    var app := AppFor(clientId, tenantId, clientSecret);
    var lookup := CacheLookup(app, scopes, useCache, idp);
    if lookup.token.None? {
      if SecretGiven(clientSecret) {
        assert r.calls[..|r.calls| - 1] == lookup.calls;
        assert IsGrant(r.calls[|r.calls| - 1]);
      } else {
        var flow := idp.initiateFlow(app, scopes);
        if "user_code" in flow && "message" in flow {
          assert r.calls[..|r.calls| - 1] == lookup.calls + [InitiateDeviceFlow(scopes)];
          assert IsGrant(r.calls[|r.calls| - 1]);
        } else {
          assert r.outcome.Raised?;
          assert r.calls[..|r.calls| - 1] == lookup.calls;
        }
      }
    }
  }

  /** A device flow without a user code raises ValueError and never waits for
      the user (no device-flow grant). */
  lemma {:induction false} MissingUserCodeRaises(clientId: string, tenantId: string, scopes: seq<string>,
                                                 useCache: bool, idp: Idp)
    requires !CacheHit(PublicApp(clientId, Authority(tenantId)), scopes, idp) || !useCache
    requires "user_code" !in idp.initiateFlow(PublicApp(clientId, Authority(tenantId)), scopes)
    ensures var r := AcquireToken(clientId, tenantId, scopes, None, useCache, idp);
            r.outcome.Raised? && r.outcome.exn.kind == ValueError && NoGrant(r.calls)
  {
    var app := PublicApp(clientId, Authority(tenantId));
    var lookup := CacheLookup(app, scopes, useCache, idp);
    var r := AcquireToken(clientId, tenantId, scopes, None, useCache, idp);
    assert r.calls == lookup.calls + [InitiateDeviceFlow(scopes)];
  }
}
