/** The search CLI that signs in with the device-code flow and sends a bearer
    token (`src/enterprise_mcp_auth/client/ai_search_mcp_client.py`).

    The module-level `MCP_SERVER_URL` is read by `run_client` and reassigned by
    `main` once a token has been obtained; it is the one field of
    `ClientModule`. */
module SearchCli {
  import opened PyRuntime
  import opened Relay
  import opened ClientAuth
  import opened CliCommands

  const LocalServer := "http://localhost:8000"

  /** The environment as read at import time. */
  datatype Settings = Settings(clientId: string, tenantId: string, serverUrl: string, audience: string)

  function SettingsFromEnv(env: Env): (s: Settings)
    ensures s.clientId == GetEnvOr(env, "AZURE_CLIENT_ID", "")
    ensures s.tenantId == GetEnvOr(env, "AZURE_TENANT_ID", "")
    ensures s.serverUrl == GetEnvOr(env, "MCP_SERVER_URL", LocalServer)
    ensures s.audience == GetEnvOr(env, "MCP_SERVER_AUDIENCE", "")
  {
    Settings(GetEnvOr(env, "AZURE_CLIENT_ID", ""), GetEnvOr(env, "AZURE_TENANT_ID", ""),
             GetEnvOr(env, "MCP_SERVER_URL", LocalServer), GetEnvOr(env, "MCP_SERVER_AUDIENCE", ""))
  }

  /** The required-variable checks: the message printed before exiting with 1. */
  function EnvCheck(s: Settings): (r: Option<string>)
    ensures r.None? <==> s.clientId != "" && s.tenantId != ""
    ensures s.clientId == "" ==> r == Some("Error: AZURE_CLIENT_ID environment variable is required")
    ensures s.clientId != "" && s.tenantId == "" ==> r == Some("Error: AZURE_TENANT_ID environment variable is required")
  {
    if s.clientId == "" then Some("Error: AZURE_CLIENT_ID environment variable is required")
    else if s.tenantId == "" then Some("Error: AZURE_TENANT_ID environment variable is required")
    else None
  }

  /** One scope: the server audience when configured, else the app's default scope. */
  function Scopes(s: Settings): (r: seq<string>)
    ensures |r| == 1
    ensures s.audience != "" ==> r[0] == s.audience
    ensures s.audience == "" ==> r[0] == "api://" + s.clientId + "/.default"
  {
    if s.audience != "" then [s.audience] else ["api://" + s.clientId + "/.default"]
  }

  /** `acquire_token_via_device_code`: the device-code flow of the client
      library with the cache always consulted. */
  function AcquireTokenViaDeviceCode(clientId: string, tenantId: string, scopes: seq<string>, idp: Idp): (r: Acquired)
    ensures var app := PublicApp(clientId, Authority(tenantId));
            CacheHit(app, scopes, idp) ==>
              r.outcome == Returned(CachedToken(app, scopes, idp)) && NoGrant(r.calls)
    ensures var app := PublicApp(clientId, Authority(tenantId));
            !CacheHit(app, scopes, idp) && "user_code" !in idp.initiateFlow(app, scopes) ==>
              r.outcome.Raised? && r.outcome.exn.kind == ValueError && NoGrant(r.calls)
    ensures var app := PublicApp(clientId, Authority(tenantId));
            var flow := idp.initiateFlow(app, scopes);
            !CacheHit(app, scopes, idp) && "user_code" in flow && "message" in flow ==>
              r.outcome == GrantOutcome(idp.byDeviceFlow(app, flow), "Authentication failed: ")
  {
    AcquireDeviceCode(clientId, "https://login.microsoftonline.com/" + tenantId, scopes, true, idp)
  }

  /** The end of one invocation. */
  datatype ClientRun =
    | UsageError(message: string)                  // parser.error, status 2
    | Exit(code: int, message: string)
    | BearerSession(url: string, headers: map<string, string>, action: Action)

  /** What opening and closing a streamable-HTTP session to a URL with the
      given headers raises, if anything. Each command catches its own errors,
      so this is all that can escape `run_client`. */
  type SessionOpener = (string, map<string, string>) -> Option<Exn>

  /** The headers of every request of the session: the bearer token alone. */
  function BearerAuthorization(token: string): (h: map<string, string>)
    ensures h.Keys == {"Authorization"}
    ensures StartsWith(h["Authorization"], "Bearer ") && h["Authorization"][7..] == token
  {
    map["Authorization" := "Bearer " + token]
  }

  /** `run_client` under `main`'s handler: a streamable-HTTP session to `url`
      carrying the bearer token, or status 1 when the session raises. */
  function RunClient(url: string, token: string, command: string, kwargs: Dict, session: SessionOpener): (r: ClientRun)
    ensures session(url, BearerAuthorization(token)).None? <==> r.BearerSession?
    ensures r.BearerSession? ==>
              r.url == url && r.headers == BearerAuthorization(token) && r.action == Dispatch(command, kwargs)
    ensures session(url, BearerAuthorization(token)).Some? ==>
              r == Exit(1, "Error: " + session(url, BearerAuthorization(token)).value.message)
  {
    var headers := BearerAuthorization(token);
    match session(url, headers)
    case Some(e) => Exit(1, "Error: " + e.message)
    case None => BearerSession(url, headers, Dispatch(command, kwargs))
  }

  /** `main`, given the arguments, the environment's settings, the identity
      provider and the session: the first failing step decides the end. */
  function MainSpec(args: Args, s: Settings, idp: Idp, session: SessionOpener): (r: ClientRun)
    ensures r.UsageError? <==> ValidateArgs(args).Some?
    ensures r.Exit? ==> r.code == 1
    ensures ValidateArgs(args).None? && EnvCheck(s).Some? ==> r == Exit(1, EnvCheck(s).value)
    ensures ValidateArgs(args).None? && EnvCheck(s).None? ==>
              var acquired := AcquireTokenViaDeviceCode(s.clientId, s.tenantId, Scopes(s), idp);
              && (acquired.outcome.Raised? ==> r == Exit(1, "Authentication failed: " + acquired.outcome.exn.message))
              && (acquired.outcome.Returned? ==>
                    r == RunClient(args.serverUrl.GetOr(s.serverUrl), acquired.outcome.value, args.command,
                                   Kwargs(args), session))
  {
    match ValidateArgs(args)
    case Some(message) => UsageError(message)
    case None =>
      match EnvCheck(s)
      case Some(message) => Exit(1, message)
      case None =>
        var acquired := AcquireTokenViaDeviceCode(s.clientId, s.tenantId, Scopes(s), idp);
        match acquired.outcome
        case Raised(e) => Exit(1, "Authentication failed: " + e.message)
        case Returned(token) =>
          RunClient(args.serverUrl.GetOr(s.serverUrl), token, args.command, Kwargs(args), session)
  }

  /** `main` gets as far as reassigning the global: the arguments and the
      settings are valid and the device flow returned a token. */
  predicate TokenObtained(args: Args, s: Settings, idp: Idp) {
    && ValidateArgs(args).None? && EnvCheck(s).None?
    && AcquireTokenViaDeviceCode(s.clientId, s.tenantId, Scopes(s), idp).outcome.Returned?
  }

  /** A session is opened only for valid arguments and a configured app, it
      talks to the `--server-url` value (or its default) rather than the
      import-time setting, and it carries the token the device flow returned. */
  lemma {:induction false} SessionUsesArgumentUrlAndToken(args: Args, s: Settings, idp: Idp, session: SessionOpener)
    requires MainSpec(args, s, idp, session).BearerSession?
    ensures TokenObtained(args, s, idp)
    ensures var r := MainSpec(args, s, idp, session);
            var acquired := AcquireTokenViaDeviceCode(s.clientId, s.tenantId, Scopes(s), idp);
            && r.url == args.serverUrl.GetOr(s.serverUrl)
            && acquired.outcome.Returned?
            && r.headers["Authorization"] == "Bearer " + acquired.outcome.value
            && !r.action.UnknownCommand?
  {
    ValidatedArgumentsReachTool(args);
  }

  /** The module's mutable global. */
  class ClientModule {
    const settings: Settings
    var mcpServerUrl: string

    constructor(env: Env)
      ensures settings == SettingsFromEnv(env)
      ensures mcpServerUrl == settings.serverUrl
    {
      settings := SettingsFromEnv(env);
      mcpServerUrl := SettingsFromEnv(env).serverUrl;
    }

    /** `main`: the global is reassigned exactly when a token was obtained
        (whether or not the session then fails), and `run_client` then reads
        the new value. */
    method RunMain(args: Args, idp: Idp, session: SessionOpener) returns (r: ClientRun)
      modifies this
      ensures r == MainSpec(args, settings, idp, session)
      ensures TokenObtained(args, settings, idp) ==> mcpServerUrl == args.serverUrl.GetOr(settings.serverUrl)
      ensures !TokenObtained(args, settings, idp) ==> mcpServerUrl == old(mcpServerUrl)
    {
      var invalid := ValidateArgs(args);
      if invalid.Some? {
        return UsageError(invalid.value);
      }
      var missing := EnvCheck(settings);
      if missing.Some? {
        return Exit(1, missing.value);
      }
      var acquired := AcquireTokenViaDeviceCode(settings.clientId, settings.tenantId, Scopes(settings), idp);
      if acquired.outcome.Raised? {
        return Exit(1, "Authentication failed: " + acquired.outcome.exn.message);
      }
      mcpServerUrl := args.serverUrl.GetOr(settings.serverUrl);
      r := RunClient(mcpServerUrl, acquired.outcome.value, args.command, Kwargs(args), session);
    }
  }
}
