/** The search CLI that lets FastMCP run the browser OAuth flow
    (`enterprise_mcp_auth/client/ai_search_mcp_client.py`). */
module OauthCli {
  import opened PyRuntime
  import opened CliCommands

  const LocalServer := "http://localhost:8000"
  const LocalMcpEndpoint := "http://localhost:8000/mcp"

  /** The "/mcp is missing" fix-up: a URL that is the local server once its
      trailing slashes are stripped becomes the local MCP endpoint; any other
      URL is used as given. */
  function NormaliseUrl(url: string): (r: string)
    ensures RStrip(url, '/') == LocalServer ==> r == LocalMcpEndpoint
    ensures RStrip(url, '/') != LocalServer ==> r == url
  {
    if RStrip(url, '/') == LocalServer then LocalMcpEndpoint else url
  }

  /** Normalising a normalised URL changes nothing. */
  lemma {:induction false} NormaliseUrlIdempotent(url: string)
    ensures NormaliseUrl(NormaliseUrl(url)) == NormaliseUrl(url)
  {
    var r := NormaliseUrl(url);
    if r == LocalMcpEndpoint {
      assert RStrip(r, '/') == r;
      assert |r| != |LocalServer|;
    }
  }

  /** Exactly the local server with any number of trailing slashes is rewritten. */
  lemma {:induction false} NormaliseUrlRewrites(n: nat)
    ensures NormaliseUrl(LocalServer + Slashes(n)) == LocalMcpEndpoint
    ensures NormaliseUrl(LocalMcpEndpoint) == LocalMcpEndpoint
  {
    StripSlashes(LocalServer, n);
    assert RStrip(LocalMcpEndpoint, '/') == LocalMcpEndpoint;
  }

  function Slashes(n: nat): (r: string)
    ensures |r| == n && forall i :: 0 <= i < n ==> r[i] == '/'
  {
    if n == 0 then "" else Slashes(n - 1) + "/"
  }

  lemma {:induction false} StripSlashes(s: string, n: nat)
    requires s == [] || s[|s| - 1] != '/'
    ensures RStrip(s + Slashes(n), '/') == s
  {
    if n == 0 {
      assert s + Slashes(0) == s;
    } else {
      StripSlashes(s, n - 1);
      assert (s + Slashes(n))[..|s + Slashes(n)| - 1] == s + Slashes(n - 1);
    }
  }

  /** The end of one invocation: an argparse usage error (status 2), exit
      status 1 with the message printed, or a session with the server over
      FastMCP's browser OAuth that ran `action`. */
  datatype ClientRun =
    | UsageError(message: string)
    | Exit(code: int, message: string)
    | OAuthSession(url: string, action: Action)

  /** What opening and closing a FastMCP session to a URL (browser sign-in
      included) raises, if anything. Each command catches its own errors, so
      this is all that can escape `run_client`. */
  type SessionOpener = string -> Option<Exn>

  /** `main`: validate the arguments, take `--server-url` (default
      `MCP_SERVER_URL`, else the local MCP endpoint), normalise it and run the
      command; an exception escaping the session ends with status 1. */
  function Main(args: Args, env: Env, session: SessionOpener): (r: ClientRun)
    ensures ValidateArgs(args).Some? <==> r.UsageError?
    ensures r.Exit? ==> r.code == 1
    ensures ValidateArgs(args).None? ==>
              var url := NormaliseUrl(args.serverUrl.GetOr(GetEnvOr(env, "MCP_SERVER_URL", LocalMcpEndpoint)));
              && (session(url).None? <==> r.OAuthSession?)
              && (session(url).Some? ==> r == Exit(1, "Error: " + session(url).value.message))
    ensures r.OAuthSession? ==>
              r.url == NormaliseUrl(args.serverUrl.GetOr(GetEnvOr(env, "MCP_SERVER_URL", LocalMcpEndpoint)))
              && r.action == Dispatch(args.command, Kwargs(args))
  {
    match ValidateArgs(args)
    case Some(message) => UsageError(message)
    case None =>
      var serverUrl := NormaliseUrl(args.serverUrl.GetOr(GetEnvOr(env, "MCP_SERVER_URL", LocalMcpEndpoint)));
      match session(serverUrl)
      case Some(e) => Exit(1, "Error: " + e.message)
      case None => OAuthSession(serverUrl, Dispatch(args.command, Kwargs(args)))
  }

  /** A session is only ever opened for a known command. */
  lemma {:induction false} SessionRunsKnownCommand(args: Args, env: Env, session: SessionOpener)
    requires Main(args, env, session).OAuthSession?
    ensures !Main(args, env, session).action.UnknownCommand?
    ensures NormaliseUrl(Main(args, env, session).url) == Main(args, env, session).url
  {
    ValidatedArgumentsReachTool(args);
    NormaliseUrlIdempotent(args.serverUrl.GetOr(GetEnvOr(env, "MCP_SERVER_URL", LocalMcpEndpoint)));
  }
}
